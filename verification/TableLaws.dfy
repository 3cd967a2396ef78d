/** The two transition tables read by who asks: the moves each role may make, and what an order's
    history says about who made them. */
module TableLaws {
  import opened Status
  import opened History
  import J = Journey

  // ---- Orders --------------------------------------------------------------------------------

  // Each says from where its party may bring an order to a status.

  predicate ShipperMoves(from: OrderStatus, to: OrderStatus) {
    match to
    case OrderSubmitted => from == OrderDraft
    case OrderCancelled => from == OrderDraft || from == OrderSubmitted
    case OrderCancelRequested => from == OrderApproved || from == OrderReadyToPlan || from == OrderAssigned
    case OrderCompleted => from == OrderDelivered
    case _ => false
  }

  predicate CarrierMoves(from: OrderStatus, to: OrderStatus) {
    match to
    case OrderApproved => from == OrderSubmitted
    case OrderRejected => from == OrderSubmitted
    case OrderReadyToPlan => from == OrderApproved || from == OrderAssigned || from == OrderCancelRequested
    case OrderAssigned => from == OrderApproved || from == OrderReadyToPlan || from == OrderCancelRequested
    case OrderCancelled => from == OrderCancelRequested
    case _ => false
  }

  predicate AnybodyMoves(from: OrderStatus, to: OrderStatus) {
    match to
    case OrderInTransit => from == OrderAssigned
    case OrderDelivered => from == OrderInTransit
    case OrderCompleted => from == OrderInTransit
    case _ => false
  }

  predicate PicMoves(from: OrderStatus, to: OrderStatus) { from == OrderDelivered && to == OrderCompleted }

  predicate PlatformMoves(from: OrderStatus, to: OrderStatus) {
    to == OrderCancelled
    && (from == OrderApproved || from == OrderReadyToPlan || from == OrderAssigned || from == OrderInTransit)
  }

  predicate IsAdministrator(role: Role) { role == RoleAdmin || role == RoleSuperadmin }

  predicate IsCarrier(role: Role) { role == RoleTransporter || role == RoleManager }

  /** The moves a role may make, all of them and no others; administrators may make everybody's. */
  predicate MayMakeOrderMove(from: OrderStatus, to: OrderStatus, role: Role) {
    || AnybodyMoves(from, to)
    || (ShipperMoves(from, to) && (role == RoleShipper || IsAdministrator(role)))
    || (CarrierMoves(from, to) && (IsCarrier(role) || IsAdministrator(role)))
    || (PicMoves(from, to) && (role == RoleWarehousePic || IsAdministrator(role)))
    || (PlatformMoves(from, to) && IsAdministrator(role))
  }

  lemma OrderEntries(from: OrderStatus, to: OrderStatus)
    ensures match OrderEdge(from, to)
            case NoEdge => !AnybodyMoves(from, to) && !ShipperMoves(from, to) && !CarrierMoves(from, to)
                           && !PicMoves(from, to) && !PlatformMoves(from, to)
            case AnyParty => AnybodyMoves(from, to) && !OrderIsFinal(from) && !from.OrderUnknown?
            case Only(roles) =>
              && !AnybodyMoves(from, to) && !OrderIsFinal(from) && !from.OrderUnknown?
              && (ShipperMoves(from, to) <==> roles == Shippers || roles == ShipperAlone || roles == Receivers)
              && (CarrierMoves(from, to) <==> roles == Carriers)
              && (PicMoves(from, to) <==> roles == Receivers)
              && (PlatformMoves(from, to) <==> roles == Platform)
              && (ShipperMoves(from, to) || CarrierMoves(from, to) || PlatformMoves(from, to))
  {
  }

  lemma OrderMovesByRole(from: OrderStatus, to: OrderStatus, role: Role)
    ensures CanTransitionOrder(from, to, role) == Allowed <==> MayMakeOrderMove(from, to, role)
  {
    OrderEntries(from, to);
    if OrderIsFinal(from) || from.OrderUnknown? { FinalStatesHaveNoSuccessor(from, to, role); }
  }

  /** What a caller is told of a move that is not made: that the order's status is none, that it is final,
      that the move is another role's, or that there is no such move. */
  lemma OrderVerdicts(from: OrderStatus, to: OrderStatus, role: Role)
    ensures var verdict := CanTransitionOrder(from, to, role);
            && (verdict == UnknownState <==> from.OrderUnknown?)
            && (verdict == FinalState <==> from in {OrderCompleted, OrderCancelled, OrderRejected})
            && (verdict == RoleRefused <==>
                  !MayMakeOrderMove(from, to, role) && MayMakeOrderMove(from, to, RoleSuperadmin))
  {
    OrderEntries(from, to);
    OrderMovesByRole(from, to, role);
    OrderMovesByRole(from, to, RoleSuperadmin);
  }

  /** A caller moves an order exactly when their company is on it, their role may make the move, and, to
      accept, refuse or plan, the company carries it, to submit, it ships it. */
  lemma OrderIsMovedIff(orders: map<OrderId, J.Order>, id: OrderId, a: J.Actor, to: OrderStatus)
    ensures TransitionRefusal(orders, id, a, to).None? <==>
              && id in orders
              && (orders[id].shipper == a.company || orders[id].transporter == Some(a.company))
              && MayMakeOrderMove(orders[id].status, to, J.MachineRole(a, orders[id]))
              && (to in {OrderApproved, OrderRejected, OrderReadyToPlan} ==>
                    orders[id].transporter == Some(a.company) || IsAdministrator(a.role))
              && (to == OrderSubmitted ==> orders[id].shipper == a.company || IsAdministrator(a.role))
  {
    if id in orders { OrderMovesByRole(orders[id].status, to, J.MachineRole(a, orders[id])); }
  }

  /** Known to the service by their company alone. */
  predicate IsTenant(a: J.Actor, company: J.CompanyId) {
    a.company == company && !a.bypass && (a.role == RoleShipper || a.role == RoleTransporter || a.role == RoleOther)
  }

  function At(orders: map<OrderId, J.Order>, id: OrderId, status: OrderStatus): map<OrderId, J.Order>
    requires id in orders
  {
    orders[id := orders[id].(status := status)]
  }

  /** Shipper and carrier take an order from draft to assigned between them, in three calls. */
  lemma ShipperAndCarrierAssign(orders: map<OrderId, J.Order>, id: OrderId, shipper: J.Actor, carrier: J.Actor)
    requires id in orders && orders[id].status == OrderDraft
    requires orders[id].transporter.Some? && orders[id].transporter.value != orders[id].shipper
    requires IsTenant(shipper, orders[id].shipper) && IsTenant(carrier, orders[id].transporter.value)
    ensures TransitionRefusal(orders, id, shipper, OrderSubmitted).None?
    ensures TransitionRefusal(At(orders, id, OrderSubmitted), id, carrier, OrderApproved).None?
    ensures TransitionRefusal(At(orders, id, OrderApproved), id, carrier, OrderAssigned).None?
  {
  }

  /** Each of the three is refused to the other one. */
  lemma NeitherAssignsAlone(orders: map<OrderId, J.Order>, id: OrderId, shipper: J.Actor, carrier: J.Actor)
    requires id in orders && orders[id].status == OrderDraft
    requires orders[id].transporter.Some? && orders[id].transporter.value != orders[id].shipper
    requires IsTenant(shipper, orders[id].shipper) && IsTenant(carrier, orders[id].transporter.value)
    ensures TransitionRefusal(orders, id, carrier, OrderSubmitted).Some?
    ensures TransitionRefusal(At(orders, id, OrderSubmitted), id, shipper, OrderApproved).Some?
    ensures TransitionRefusal(At(orders, id, OrderApproved), id, shipper, OrderAssigned).Some?
  {
  }

  /** Where an order is only once it has been accepted. */
  predicate WasAccepted(s: OrderStatus) {
    s in {OrderApproved, OrderReadyToPlan, OrderAssigned, OrderCancelRequested, OrderInTransit, OrderDelivered,
          OrderCompleted}
  }

  /** However an order that began as a draft came to be planned, driven or completed, its history has the
      shipper's side submitting it and, next, the carrier's side approving it. */
  lemma {:induction false} BothSidesAgreed(b: Book, j: nat) returns (k: nat)
    requires IsPath(b) && j < |b.history| && b.history[0].to == OrderDraft && WasAccepted(b.history[j].to)
    ensures 2 <= k <= j && b.history[k].from == Some(OrderSubmitted) && b.history[k].to == OrderApproved
    ensures IsCarrier(b.history[k].role) || IsAdministrator(b.history[k].role)
    ensures b.history[k - 1].from == Some(OrderDraft) && b.history[k - 1].to == OrderSubmitted
    ensures b.history[k - 1].role == RoleShipper || IsAdministrator(b.history[k - 1].role)
    decreases j
  {
    var last := b.history[j];
    assert IsLegal(last) && last.from == Some(b.history[j - 1].to);
    OrderMovesByRole(b.history[j - 1].to, last.to, last.role);
    if last.to == OrderApproved {
      k := j;
      assert IsLegal(b.history[j - 1]) && b.history[j - 1].from == Some(b.history[j - 2].to);
      OrderMovesByRole(b.history[j - 2].to, OrderSubmitted, b.history[j - 1].role);
    } else {
      k := BothSidesAgreed(b, j - 1);
    }
  }

  // ---- Shipments -----------------------------------------------------------------------------

  const DRIVER_STEPS: set<(ShipmentStatus, ShipmentStatus)> := {
    (SHIPMENT_ASSIGNED, SHIPMENT_TO_LOADING), (SHIPMENT_TO_LOADING, SHIPMENT_AT_LOADING),
    (SHIPMENT_AT_LOADING, SHIPMENT_LOADING), (SHIPMENT_LOADING_APPROVED, SHIPMENT_LOADING),
    (SHIPMENT_LOADED, SHIPMENT_TO_UNLOADING), (SHIPMENT_TO_UNLOADING, SHIPMENT_AT_UNLOADING),
    (SHIPMENT_AT_UNLOADING, SHIPMENT_UNLOADING), (SHIPMENT_UNLOADING_APPROVED, SHIPMENT_UNLOADING)}

  const SYSTEM_STEPS: set<(ShipmentStatus, ShipmentStatus)> := {
    (SHIPMENT_LOADING, SHIPMENT_LOADED), (SHIPMENT_LOADED, SHIPMENT_TO_UNLOADING),
    (SHIPMENT_UNLOADING, SHIPMENT_UNLOADED), (SHIPMENT_UNLOADED, SHIPMENT_FINISHED)}

  const PIC_STEPS: set<(ShipmentStatus, ShipmentStatus)> := {(SHIPMENT_UNLOADED, SHIPMENT_FINISHED)}

  const CARRIER_STEPS: set<(ShipmentStatus, ShipmentStatus)> := {
    (SHIPMENT_ASSIGNED, SHIPMENT_CANCELLED), (SHIPMENT_TO_LOADING, SHIPMENT_CANCELLED)}

  /** The steps a role may take with a shipment, all of them and no others. */
  lemma ShipmentStepsByRole(from: ShipmentStatus, to: ShipmentStatus, role: Role)
    ensures CanTransitionShipment(from, to, role) == Allowed <==>
              || ((from, to) in DRIVER_STEPS && (role == RoleDriver || IsAdministrator(role)))
              || ((from, to) in SYSTEM_STEPS && (role == RoleSystem || IsAdministrator(role)))
              || ((from, to) in PIC_STEPS && (role == RoleWarehousePic || IsAdministrator(role)))
              || ((from, to) in CARRIER_STEPS && (IsCarrier(role) || IsAdministrator(role)))
  {
  }
}
