/** What every clean run of a journey keeps. */
module JourneySafety {
  import opened Status
  import opened Stops
  import opened Journey
  import opened Walking

  // ---- The run-time assumptions --------------------------------------------------------------

  /** Nobody who steps over the gates; "system" is never a caller's role. */
  predicate CleanActor(a: Actor) { !a.bypass && !IsSignOff(a.role) }

  ghost predicate CleanEvent(w: World, e: Event) {
    match e
    case Crossing(_, _) => true
    case Audit(_) => true
    case Submit(a, stage, named, _, pod) =>
      && CleanActor(a)
      && pod !in w.pods
      && (named.Some? ==> exists i :: 0 <= i < |w.stops| && w.stops[i].id == named.value && w.stops[i].kind == stage)
    case _ => CleanActor(e.actor)
  }

  ghost predicate CleanRun(w: World, events: seq<Event>) {
    if events == [] then true
    else
      var before := events[..|events| - 1];
      CleanRun(w, before) && CleanEvent(Run(w, before), events[|before|])
  }

  // ---- The invariant -------------------------------------------------------------------------

  ghost predicate Shape(w: World) {
    && DistinctIds(w.stops)
    && (exists i :: 0 <= i < |w.stops| && w.stops[i].kind == Load)
    && (exists i :: 0 <= i < |w.stops| && w.stops[i].kind == Unload)
  }

  ghost predicate Names(w: World, p: PodId, i: int) {
    p in w.pods && 0 <= i < |w.stops| && w.pods[p].stopId == Some(w.stops[i].id)
  }

  /** Every POD names a stop, and one of its own stage. */
  ghost predicate PodsNameStops(w: World) {
    && (forall p :: p in w.pods ==> w.pods[p].stopId.Some?)
    && (forall p, i :: Names(w, p, i) ==> w.stops[i].kind == w.pods[p].stage)
  }

  /** A stop is finished exactly when an approved POD names it, and then that POD, alone, is its
      pod_id. */
  ghost predicate ClosedByPods(w: World) {
    && (forall i :: 0 <= i < |w.stops| && w.stops[i].finishedAt.Some? ==>
          w.stops[i].podId.Some? && Names(w, w.stops[i].podId.value, i)
              && w.pods[w.stops[i].podId.value].status == PodApproved)
    && (forall p, i :: Names(w, p, i) && w.pods[p].status == PodApproved ==>
          w.stops[i].finishedAt.Some? && w.stops[i].podId == Some(p))
  }

  predicate InReview(w: World, p: PodId, stage: Kind) {
    p in w.pods && w.pods[p].status == PodSubmitted && w.pods[p].stage == stage
  }

  ghost predicate OneInReview(w: World) {
    forall p, q, stage :: InReview(w, p, stage) && InReview(w, q, stage) ==> p == q
  }

  ghost predicate ReviewedIsOpen(w: World) {
    forall p, i :: Names(w, p, i) && w.pods[p].status == PodSubmitted ==> w.stops[i].finishedAt.None?
  }

  ghost predicate StartedWasReached(w: World) {
    forall i :: 0 <= i < |w.stops| && w.stops[i].startedAt.Some? ==> w.stops[i].arrivedAt.Some?
  }

  ghost predicate AllFinished(w: World, kind: Kind) {
    forall i :: 0 <= i < |w.stops| && w.stops[i].kind == kind ==> w.stops[i].finishedAt.Some?
  }

  ghost predicate NoneInReview(w: World, stage: Kind) {
    forall p :: !InReview(w, p, stage)
  }

  predicate LiveStatus(s: ShipmentStatus) { (OnChain(s) && !IsLegacy(s)) || s == SHIPMENT_CANCELLED }

  /** The strengthened form of "loaded means every loading stop is closed", which is not true. */
  ghost predicate StatusSafe(w: World) {
    && LiveStatus(w.shipment.status)
    && (AtOrPast(w.shipment.status, SHIPMENT_UNLOADED) ==> AllFinished(w, Load) && AllFinished(w, Unload))
    && (AtOrPast(w.shipment.status, SHIPMENT_LOADED) && !AllFinished(w, Load) ==>
          AllFinished(w, Unload) && NoneInReview(w, Unload))
  }

  ghost predicate Prefix(stops: seq<Stop>) {
    forall i, j :: 0 <= j < i < |stops| && stops[i].Visited() ==> stops[j].Visited()
  }

  ghost predicate ReviewedIsNext(w: World) {
    forall p, i :: Names(w, p, i) && w.pods[p].status == PodSubmitted ==> IsNext(w.stops, i)
  }

  ghost predicate PrefixSafe(w: World) {
    |w.stops| > 0 && w.stops[0].kind == Load ==> Prefix(w.stops) && ReviewedIsNext(w)
  }

  ghost predicate PodsSafe(w: World) {
    && Shape(w) && PodsNameStops(w) && ClosedByPods(w) && OneInReview(w) && ReviewedIsOpen(w)
  }

  ghost predicate Safe(w: World) {
    && Linked(w)
    && PodsSafe(w)
    && StartedWasReached(w)
    && StatusSafe(w)
    && PrefixSafe(w)
  }

  /** A journey as AssignDriver leaves it: nothing visited, nothing submitted. */
  ghost predicate Fresh(w: World) {
    && Shape(w)
    && w.pods == map[]
    && w.shipment.status == SHIPMENT_ASSIGNED && w.order.status == OrderAssigned
    && forall i :: 0 <= i < |w.stops| ==>
         !w.stops[i].Visited() && w.stops[i].startedAt.None? && w.stops[i].podId.None?
  }

  // ---- How the status can move ---------------------------------------------------------------

  predicate StaysShort(from: ShipmentStatus, to: ShipmentStatus) {
    && LiveStatus(to)
    && (AtOrPast(to, SHIPMENT_LOADED) ==> AtOrPast(from, SHIPMENT_LOADED))
    && (AtOrPast(to, SHIPMENT_UNLOADED) ==> AtOrPast(from, SHIPMENT_UNLOADED))
  }

  lemma EdgeStaysShort(from: ShipmentStatus, to: ShipmentStatus, role: Role)
    requires CanTransitionShipment(from, to, role) == Allowed && !IsSignOff(role) && LiveStatus(from)
    ensures StaysShort(from, to)
  {
  }

  lemma {:induction false} ReachStaysShort(actor: Actor, from: ShipmentStatus, to: ShipmentStatus, role: Role,
      fence: Fence)
    requires !IsSignOff(role) && LiveStatus(from)
    ensures StaysShort(from, Reach(actor, from, to, role, fence))
    decreases SHIPMENT_UNKNOWN - from
  {
    var next := NextTowards(from, to);
    if next.Some? && Permits(actor, from, next.value, role, fence) {
      EdgeStaysShort(from, next.value, role);
      ReachStaysShort(actor, next.value, to, role, fence);
    }
  }

  lemma CleanRoleCannotSignOff(actor: Actor, order: Order)
    requires CleanActor(actor)
    ensures !IsSignOff(MachineRole(actor, order))
  {
  }

  /** Where the approval that ends a stage leaves the shipment. */
  function SignedOff(stage: Kind, s: ShipmentStatus): ShipmentStatus {
    if s == SHIPMENT_LOADING || s == SHIPMENT_LOADED then SHIPMENT_TO_UNLOADING
    else if stage == Unload && (s == SHIPMENT_UNLOADING || s == SHIPMENT_UNLOADED) then SHIPMENT_FINISHED
    else s
  }

  predicate SignOffSucceeds(stage: Kind, s: ShipmentStatus) {
    s == SHIPMENT_CANCELLED || AtOrPast(s, if stage == Load then SHIPMENT_LOADING else SHIPMENT_UNLOADING)
  }

  lemma SystemStep(actor: Actor, from: ShipmentStatus, to: ShipmentStatus)
    requires LiveStatus(from) && OnChain(to) && !IsLegacy(to) && from < to
    ensures var signs := from == SHIPMENT_LOADING || from == SHIPMENT_LOADED || from == SHIPMENT_UNLOADING
            || from == SHIPMENT_UNLOADED;
            && NextTowards(from, to).Some?
            && (Permits(actor, from, NextTowards(from, to).value, RoleSystem, NO_POSITION) <==> signs)
            && (signs ==> NextTowards(from, to).value == from + 1)
  {
  }

  /** The system takes the two steps after `loading` and the two after `unloading`, and no others. */
  lemma {:induction false} SystemReach(actor: Actor, from: ShipmentStatus, to: ShipmentStatus)
    requires LiveStatus(from) && OnChain(to) && !IsLegacy(to)
    ensures Reach(actor, from, to, RoleSystem, NO_POSITION) ==
            if (from == SHIPMENT_LOADING || from == SHIPMENT_LOADED) && to > from then
              if to < SHIPMENT_TO_UNLOADING then to else SHIPMENT_TO_UNLOADING
            else if (from == SHIPMENT_UNLOADING || from == SHIPMENT_UNLOADED) && to > from then to
            else from
    decreases SHIPMENT_UNKNOWN - from
  {
    if from < to {
      SystemStep(actor, from, to);
      if from == SHIPMENT_LOADING || from == SHIPMENT_LOADED || from == SHIPMENT_UNLOADING
          || from == SHIPMENT_UNLOADED {
        SystemReach(actor, from + 1, to);
      }
    }
  }

  lemma EndStageSignsOff(w: World, actor: Actor, stage: Kind, now: Time)
    requires Linked(w) && LiveStatus(w.shipment.status)
    ensures var r := EndStage(w, w.order.status, actor, stage, now);
            && SameButMoved(w, r.world) && Linked(r.world)
            && r.world.shipment.status == SignedOff(stage, w.shipment.status)
            && (r.failure.None? <==> SignOffSucceeds(stage, w.shipment.status))
  {
    var ends := StageEnds(stage);
    var from := w.shipment.status;
    SystemReach(actor, from, ends.0);
    WalkGoesAsFarAsItMay(w, w.order.status, actor, ends.0, RoleSystem, NO_POSITION, now);
    var first := Walk(w, w.order.status, actor, ends.0, RoleSystem, NO_POSITION, now);
    if OnChain(from) { NextTowardsIsAnEdge(first.world.shipment.status, ends.0); }
    if first.failure.None? {
      SystemReach(actor, first.world.shipment.status, ends.1);
      WalkGoesAsFarAsItMay(first.world, w.order.status, actor, ends.1, RoleSystem, NO_POSITION, now);
      if OnChain(from) {
        NextTowardsIsAnEdge(Walk(first.world, w.order.status, actor, ends.1, RoleSystem, NO_POSITION,
            now).world.shipment.status, ends.1);
      }
    }
  }

  // ---- Reports that finish nothing -----------------------------------------------------------

  /** The same rows, finished alike, with nothing recorded on them lost. */
  ghost predicate SameRows(w: World, v: World) {
    && v.pods == w.pods
    && |v.stops| == |w.stops|
    && forall i :: 0 <= i < |w.stops| ==>
         && v.stops[i].id == w.stops[i].id && v.stops[i].kind == w.stops[i].kind
         && v.stops[i].finishedAt == w.stops[i].finishedAt && v.stops[i].podId == w.stops[i].podId
         && (w.stops[i].arrivedAt.Some? ==> v.stops[i].arrivedAt.Some?)
  }

  lemma SameRowsKeepPods(w: World, v: World)
    requires PodsSafe(w) && SameRows(w, v)
    ensures PodsSafe(v)
  {
    forall p, i ensures Names(v, p, i) <==> Names(w, p, i) {}
    forall p, st ensures InReview(v, p, st) <==> InReview(w, p, st) {}
    var l :| 0 <= l < |w.stops| && w.stops[l].kind == Load;
    var u :| 0 <= u < |w.stops| && w.stops[u].kind == Unload;
    assert v.stops[l].kind == Load && v.stops[u].kind == Unload;
  }

  lemma SameRowsKeepStatus(w: World, v: World)
    requires StatusSafe(w) && SameRows(w, v) && StaysShort(w.shipment.status, v.shipment.status)
    ensures StatusSafe(v)
  {
    forall kind ensures AllFinished(v, kind) <==> AllFinished(w, kind) {}
    forall p, st ensures InReview(v, p, st) <==> InReview(w, p, st) {}
  }

  /** Arriving where every earlier point has been visited keeps the visited points a prefix. */
  lemma SameRowsKeepPrefix(w: World, v: World, at: int)
    requires PrefixSafe(w) && SameRows(w, v)
    requires forall i :: 0 <= i < |w.stops| && i != at ==> v.stops[i].arrivedAt == w.stops[i].arrivedAt
    requires 0 <= at < |w.stops| && v.stops[at].Visited() && !w.stops[at].Visited() ==> IsNext(w.stops, at)
    ensures PrefixSafe(v)
  {
    forall p, i ensures Names(v, p, i) <==> Names(w, p, i) {}
    forall i | 0 <= i < |w.stops| ensures w.stops[i].Visited() ==> v.stops[i].Visited() {}
  }

  lemma SameRowsKeepSafe(w: World, v: World, at: int)
    requires Safe(w) && SameRows(w, v) && Linked(v) && StartedWasReached(v)
    requires StaysShort(w.shipment.status, v.shipment.status)
    requires forall i :: 0 <= i < |w.stops| && i != at ==> v.stops[i].arrivedAt == w.stops[i].arrivedAt
    requires 0 <= at < |w.stops| && v.stops[at].Visited() && !w.stops[at].Visited() ==> IsNext(w.stops, at)
    ensures Safe(v)
  {
    SameRowsKeepPods(w, v);
    SameRowsKeepStatus(w, v);
    SameRowsKeepPrefix(w, v, at);
  }

  /** One row rewritten without touching what identifies or finishes it. */
  lemma TouchKeepsSafe(w: World, i: nat, stop: Stop)
    requires Safe(w) && i < |w.stops|
    requires stop
             == w.stops[i].(arrivedAt := stop.arrivedAt, startedAt := stop.startedAt,
             cargoCheckedAt := stop.cargoCheckedAt)
    requires w.stops[i].arrivedAt.Some? ==> stop.arrivedAt.Some?
    requires stop.startedAt.Some? ==> stop.arrivedAt.Some?
    requires stop.Visited() && !w.stops[i].Visited() ==> IsNext(w.stops, i)
    ensures Safe(WithStop(w, i, stop))
  {
    SameRowsKeepSafe(w, WithStop(w, i, stop), i);
  }

  lemma ArriveKeepsSafe(w: World, actor: Actor, stop: StopId, fence: Fence, now: Time)
    requires Safe(w)
    ensures Safe(ArriveAtStop(w, actor, stop, fence, now).world)
  {
    var i := IndexOf(w.stops, stop);
    if i >= 0 && IsNext(w.stops, i) {
      TouchKeepsSafe(w, i, w.stops[i].(arrivedAt := Some(now)));
    }
  }

  lemma CheckStopKeepsSafe(w: World, actor: Actor, stop: StopId, answered: bool, now: Time)
    requires Safe(w)
    ensures Safe(CheckStopCargo(w, actor, stop, answered, now).world)
  {
    var i := IndexOf(w.stops, stop);
    if i >= 0 { TouchKeepsSafe(w, i, w.stops[i].(cargoCheckedAt := Some(now))); }
  }

  lemma DriverWalkStaysShort(w: World, a: Actor, to: ShipmentStatus, fence: Fence, now: Time)
    requires Linked(w) && LiveStatus(w.shipment.status) && CleanActor(a)
             && (to == SHIPMENT_LOADING || to == SHIPMENT_UNLOADING)
    ensures var v := Walk(w, w.order.status, a, to, MachineRole(a, w.order), fence, now).world;
            StaysShort(w.shipment.status, v.shipment.status) && SameButMoved(w, v) && Linked(v)
  {
    CleanRoleCannotSignOff(a, w.order);
    ReachStaysShort(a, w.shipment.status, to, MachineRole(a, w.order), fence);
    WalkGoesAsFarAsItMay(w, w.order.status, a, to, MachineRole(a, w.order), fence, now);
  }

  lemma StartKeepsSafe(w: World, actor: Actor, stop: StopId, handover: bool, fence: Fence, now: Time)
    requires Safe(w) && CleanActor(actor)
    ensures Safe(StartStop(w, actor, stop, handover, fence, now).world)
  {
    var i := IndexOf(w.stops, stop);
    var v := StartStop(w, actor, stop, handover, fence, now).world;
    if i >= 0 && v != w {
      var started := WithStop(w, i, w.stops[i].(startedAt := Some(now)));
      DriverWalkStaysShort(started, actor, StatusForStop(w.stops[i].kind), fence, now);
      SameRowsKeepSafe(w, v, -1);
    }
  }

  lemma ShipmentReportKeepsSafe(w: World, shipment: Shipment)
    requires Safe(w) && shipment.status == w.shipment.status
    ensures Safe(w.(shipment := shipment))
  {
    SameRowsKeepSafe(w, w.(shipment := shipment), -1);
  }

  lemma {:induction false} CheckKeepsSafe(w: World, actor: Actor, stage: Kind, now: Time)
    requires Safe(w)
    ensures Safe(CargoCheck(w, actor, stage, now).world)
  {
    ShipmentReportKeepsSafe(w, CargoCheck(w, actor, stage, now).world.shipment);
  }

  lemma {:induction false} CrossingKeepsSafe(w: World, side: Kind, entering: bool, now: Time)
    requires Safe(w)
    ensures Safe(Evidence(w, side, entering, now).world)
  {
    ShipmentReportKeepsSafe(w, Evidence(w, side, entering, now).world.shipment);
  }

  lemma AuditKeepsSafe(w: World, open: bool, now: Time)
    requires Safe(w)
    ensures Safe(FieldAudit(w, open, now).world)
  {
    ShipmentReportKeepsSafe(w, FieldAudit(w, open, now).world.shipment);
  }

  lemma StepFacts(w: World, known: OrderStatus, actor: Actor, to: ShipmentStatus, role: Role, fence: Fence, now: Time)
    ensures var v := Step(w, known, actor, to, role, fence, now).world;
            && SameButMoved(w, v)
            && (v == w || (v.shipment.status == to && CanTransitionShipment(w.shipment.status, to, role) == Allowed))
  {
  }

  lemma {:induction false} MoveKeepsSafe(w: World, actor: Actor, to: ShipmentStatus, handover: bool, fence: Fence,
      now: Time)
    requires Safe(w) && CleanActor(actor)
    ensures Safe(Advance(w, actor, to, handover, fence, now).world)
  {
    var v := Advance(w, actor, to, handover, fence, now).world;
    var role := MachineRole(actor, w.order);
    CleanRoleCannotSignOff(actor, w.order);
    StepKeepsLink(w, actor, to, role, fence, now);
    StepFacts(w, w.order.status, actor, to, role, fence, now);
    if v != w {
      EdgeStaysShort(w.shipment.status, to, role);
      SameRowsKeepSafe(w, v, -1);
    }
  }

  // ---- Submissions ---------------------------------------------------------------------------

  lemma DistinctRows(w: World, i: int, j: int)
    requires DistinctIds(w.stops) && 0 <= i < |w.stops| && 0 <= j < |w.stops| && w.stops[i].id == w.stops[j].id
    ensures i == j
  {
  }

  lemma FinishedStopHasApproval(w: World, i: nat)
    requires PodsSafe(w) && i < |w.stops| && w.stops[i].finishedAt.Some?
    ensures HasApproved(w.pods, w.stops[i].kind, Some(w.stops[i].id))
    ensures HasApproved(w.pods, w.stops[i].kind, None)
  {
  }

  /** The submission names an open stop of its stage; the nil stop and a closed one are refused. */
  lemma AcceptedSubmissionNamesOpenStop(w: World, stage: Kind, named: Option<StopId>) returns (i: int)
    requires PodsSafe(w)
    requires named.Some? ==> exists k :: 0 <= k < |w.stops| && w.stops[k].id == named.value && w.stops[k].kind == stage
    requires !HasApproved(w.pods, stage, ResolveStop(w, stage, named))
    ensures 0 <= i < |w.stops| && ResolveStop(w, stage, named) == Some(w.stops[i].id)
    ensures w.stops[i].kind == stage && w.stops[i].finishedAt.None?
  {
    if named.Some? {
      i :| 0 <= i < |w.stops| && w.stops[i].id == named.value && w.stops[i].kind == stage;
    } else {
      i := FirstOpen(w.stops, stage);
      if i < 0 { i :| 0 <= i < |w.stops| && w.stops[i].kind == stage; }
    }
    if w.stops[i].finishedAt.Some? { FinishedStopHasApproval(w, i); }
  }

  /** A submission that passes its gate is for a point whose predecessors have all been visited. */
  lemma AcceptedSubmissionIsNext(w: World, stage: Kind, i: nat)
    requires Safe(w) && w.stops[0].kind == Load
    requires i < |w.stops| && w.stops[i].kind == stage && w.stops[i].finishedAt.None?
    requires SubmitRefusal(w, stage, Some(w.stops[i].id)).None?
    ensures IsNext(w.stops, i)
  {
  }

  lemma {:induction false} SubmissionKeepsPods(w: World, id: PodId, stage: Kind, i: nat)
    requires PodsSafe(w) && id !in w.pods
    requires i < |w.stops| && w.stops[i].kind == stage && w.stops[i].finishedAt.None?
    ensures PodsSafe(w.(pods := WithSubmission(w.pods, id, stage, Some(w.stops[i].id))))
  {
    var v := w.(pods := WithSubmission(w.pods, id, stage, Some(w.stops[i].id)));
    forall p, k | Names(v, p, k) ensures (p == id && k == i) || (Names(w, p, k) && v.pods[p] == w.pods[p]) {
      if p == id { DistinctRows(w, k, i); }
    }
    forall p, q, st | InReview(v, p, st) && InReview(v, q, st) ensures p == q {
      if p != id && q != id { assert InReview(w, p, st) && InReview(w, q, st); }
    }
    forall k | 0 <= k < |v.stops| && v.stops[k].finishedAt.Some?
      ensures v.stops[k].podId.Some? && Names(v, v.stops[k].podId.value, k)
              && v.pods[v.stops[k].podId.value].status == PodApproved
    {
      assert Names(w, w.stops[k].podId.value, k);
    }
  }

  lemma {:induction false} SubmitKeepsSafe(w: World, actor: Actor, stage: Kind, named: Option<StopId>, photos: bool,
      id: PodId)
    requires Safe(w) && id !in w.pods
    requires named.Some? ==> exists k :: 0 <= k < |w.stops| && w.stops[k].id == named.value && w.stops[k].kind == stage
    ensures Safe(SubmitPod(w, actor, stage, named, photos, id).world)
  {
    var stop := ResolveStop(w, stage, named);
    if SubmitRefusal(w, stage, stop).None? && !HasApproved(w.pods, stage, stop) {
      var i := AcceptedSubmissionNamesOpenStop(w, stage, named);
      var v := w.(pods := WithSubmission(w.pods, id, stage, stop));
      SubmissionKeepsPods(w, id, stage, i);
      forall p, st | InReview(v, p, st) ensures (p == id && st == stage) || InReview(w, p, st) {}
      assert StatusSafe(v) by {
        forall kind ensures AllFinished(v, kind) <==> AllFinished(w, kind) {}
        if stage == Unload { assert !AllFinished(w, Unload); }
      }
      assert PrefixSafe(v) by {
        if w.stops[0].kind == Load {
          AcceptedSubmissionIsNext(w, stage, i);
          forall p, k | Names(v, p, k) && v.pods[p].status == PodSubmitted ensures IsNext(v.stops, k) {
            if p == id { DistinctRows(w, k, i); } else { assert Names(w, p, k); }
          }
        }
      }
    }
  }

  // ---- Decisions -----------------------------------------------------------------------------

  lemma DecisionKeepsPods(w: World, pod: PodId, status: PodStatus)
    requires PodsSafe(w) && pod in w.pods && w.pods[pod].status == PodSubmitted
    requires status == PodRejected || (status == PodApproved && forall k :: !Names(w, pod, k))
    ensures PodsSafe(Decided(w, pod, status))
  {
    var v := Decided(w, pod, status);
    forall p, i ensures Names(v, p, i) <==> Names(w, p, i) {}
    forall p, st | InReview(v, p, st) ensures InReview(w, p, st) {}
  }

  lemma {:induction false} DecisionKeepsSafe(w: World, pod: PodId, status: PodStatus)
    requires Safe(w) && pod in w.pods && w.pods[pod].status == PodSubmitted
    requires status == PodRejected || (status == PodApproved && forall k :: !Names(w, pod, k))
    ensures Safe(Decided(w, pod, status))
  {
    var v := Decided(w, pod, status);
    DecisionKeepsPods(w, pod, status);
    assert StatusSafe(v) by {
      forall p, st | InReview(v, p, st) ensures InReview(w, p, st) {}
      forall kind ensures AllFinished(v, kind) <==> AllFinished(w, kind) {}
    }
    assert PrefixSafe(v) by {
      forall p, i | Names(v, p, i) ensures Names(w, p, i) {}
    }
  }

  function Approved(w: World, pod: PodId, now: Time): World
    requires pod in w.pods
  {
    Closed(Decided(w, pod, PodApproved), pod, now)
  }

  /** The approval of a POD that names row i: the row is finished by it. */
  ghost predicate ClosesRow(w: World, pod: PodId, i: int, v: World, now: Time) {
    && Names(w, pod, i)
    && v == w.(pods := w.pods[pod := w.pods[pod].(status := PodApproved)],
               stops := w.stops[i := w.stops[i].(finishedAt := Some(now), podId := Some(pod))])
  }

  lemma ApprovalClosesRow(w: World, pod: PodId, now: Time)
    requires PodsSafe(w) && pod in w.pods
    ensures var i := IndexOf(w.stops, w.pods[pod].stopId.value);
            var v := Approved(w, pod, now);
            if i >= 0 then ClosesRow(w, pod, i, v, now)
            else v == w.(pods := w.pods[pod := w.pods[pod].(status := PodApproved)]) && forall k :: !Names(w, pod, k)
  {
  }

  lemma ApprovalKeepsClosure(w: World, pod: PodId, i: int, v: World, now: Time)
    requires PodsSafe(w) && ClosesRow(w, pod, i, v, now) && w.pods[pod].status == PodSubmitted
    ensures ClosedByPods(v)
  {
  }

  lemma ApprovalKeepsReview(w: World, pod: PodId, i: int, v: World, now: Time)
    requires PodsSafe(w) && ClosesRow(w, pod, i, v, now) && w.pods[pod].status == PodSubmitted
    ensures OneInReview(v) && ReviewedIsOpen(v)
  {
    assert InReview(w, pod, w.stops[i].kind);
    forall p, st | InReview(v, p, st) ensures InReview(w, p, st) && p != pod {}
    forall p, k | Names(v, p, k) && v.pods[p].status == PodSubmitted ensures v.stops[k].finishedAt.None? {
      assert Names(w, p, k) && InReview(w, p, w.stops[k].kind);
    }
  }

  lemma ApprovalKeepsRows(w: World, pod: PodId, i: int, v: World, now: Time)
    requires PodsSafe(w) && ClosesRow(w, pod, i, v, now)
    ensures Shape(v) && PodsNameStops(v)
  {
    forall p, k ensures Names(v, p, k) <==> Names(w, p, k) {}
    var l :| 0 <= l < |w.stops| && w.stops[l].kind == Load;
    var u :| 0 <= u < |w.stops| && w.stops[u].kind == Unload;
    assert v.stops[l].kind == Load && v.stops[u].kind == Unload;
  }

  lemma ApprovalKeepsPrefix(w: World, pod: PodId, i: int, v: World, now: Time)
    requires PrefixSafe(w) && ClosesRow(w, pod, i, v, now) && w.pods[pod].status == PodSubmitted
    ensures PrefixSafe(v)
  {
    forall p, k | Names(v, p, k) ensures Names(w, p, k) {}
    forall k | 0 <= k < |w.stops| ensures w.stops[k].Visited() ==> v.stops[k].Visited() {}
  }

  /** What the status half of the invariant needs to know about an approval. */
  lemma ApprovalFacts(w: World, pod: PodId, now: Time)
    requires PodsSafe(w) && pod in w.pods && w.pods[pod].status == PodSubmitted
    ensures var v := Approved(w, pod, now);
            && (forall kind :: AllFinished(w, kind) ==> AllFinished(v, kind))
            && (forall st :: NoneInReview(w, st) ==> NoneInReview(v, st))
            && NoneInReview(v, w.pods[pod].stage) && !NoneInReview(w, w.pods[pod].stage)
            && (StageDone(v, pod) ==> AllFinished(v, w.pods[pod].stage))
            && v.shipment == w.shipment && v.order == w.order
  {
    var v := Approved(w, pod, now);
    ApprovalClosesRow(w, pod, now);
    assert InReview(w, pod, w.pods[pod].stage);
    forall p, st | InReview(v, p, st) ensures InReview(w, p, st) && p != pod {}
    forall kind | AllFinished(w, kind) ensures AllFinished(v, kind) {}
  }

  lemma ApprovalKeepsRest(w: World, pod: PodId, now: Time)
    requires Safe(w) && pod in w.pods && w.pods[pod].status == PodSubmitted
    ensures var v := Approved(w, pod, now);
            Linked(v) && PodsSafe(v) && StartedWasReached(v) && PrefixSafe(v)
  {
    var v := Approved(w, pod, now);
    var i := IndexOf(w.stops, w.pods[pod].stopId.value);
    ApprovalClosesRow(w, pod, now);
    if i >= 0 {
      ApprovalKeepsClosure(w, pod, i, v, now);
      ApprovalKeepsReview(w, pod, i, v, now);
      ApprovalKeepsRows(w, pod, i, v, now);
      ApprovalKeepsPrefix(w, pod, i, v, now);
    } else {
      DecisionKeepsSafe(w, pod, PodApproved);
    }
  }

  lemma MovedKeepsRest(w: World, v: World)
    requires PodsSafe(w) && StartedWasReached(w) && PrefixSafe(w) && SameButMoved(w, v)
    ensures PodsSafe(v) && StartedWasReached(v) && PrefixSafe(v)
    ensures forall kind :: AllFinished(v, kind) <==> AllFinished(w, kind)
    ensures forall st :: NoneInReview(v, st) <==> NoneInReview(w, st)
  {
    SameRowsKeepPods(w, v);
    SameRowsKeepPrefix(w, v, -1);
    forall kind ensures AllFinished(v, kind) <==> AllFinished(w, kind) {}
    forall p, st ensures InReview(v, p, st) <==> InReview(w, p, st) {}
  }

  /** Closing a stop, and signing its stage off when that was the last, keeps what the status says. */
  lemma SignOffKeepsStatus(w: World, v: World, stage: Kind, last: bool)
    requires StatusSafe(w) && !NoneInReview(w, stage) && NoneInReview(v, stage)
    requires forall kind :: AllFinished(w, kind) ==> AllFinished(v, kind)
    requires forall st :: NoneInReview(w, st) ==> NoneInReview(v, st)
    requires last ==> AllFinished(v, stage)
    requires v.shipment.status == if last then SignedOff(stage, w.shipment.status) else w.shipment.status
    ensures StatusSafe(v)
  {
  }

  lemma {:induction false} ApprovalKeepsSafe(w: World, actor: Actor, pod: PodId, now: Time)
    requires Safe(w) && pod in w.pods && w.pods[pod].status == PodSubmitted
    ensures Safe(ReviewPod(w, actor, pod, true, true, now).world)
  {
    var c, stage := Approved(w, pod, now), w.pods[pod].stage;
    ApprovalFacts(w, pod, now);
    ApprovalKeepsRest(w, pod, now);
    if StageDone(c, pod) {
      EndStageSignsOff(c, actor, stage, now);
      var v := EndStage(c, c.order.status, actor, stage, now).world;
      MovedKeepsRest(c, v);
      SignOffKeepsStatus(w, v, stage, true);
    } else {
      SignOffKeepsStatus(w, c, stage, false);
    }
  }

  lemma {:induction false} ReviewKeepsSafe(w: World, actor: Actor, pod: PodId, approve: bool, reason: bool, now: Time)
    requires Safe(w)
    ensures Safe(ReviewPod(w, actor, pod, approve, reason, now).world)
  {
    if pod in w.pods && w.pods[pod].status == PodSubmitted {
      if approve { ApprovalKeepsSafe(w, actor, pod, now); } else { DecisionKeepsSafe(w, pod, PodRejected); }
    }
  }

  // ---- Clean runs ----------------------------------------------------------------------------

  lemma CleanCallKeepsSafe(w: World, e: Event, now: Time)
    requires Safe(w) && CleanEvent(w, e)
    ensures Safe(Apply(w, e, now).world)
  {
    match e
    case Arrive(a, stop, fence) => ArriveKeepsSafe(w, a, stop, fence, now);
    case Start(a, stop, handover, fence) => StartKeepsSafe(w, a, stop, handover, fence, now);
    case CheckStop(a, stop, answered) => CheckStopKeepsSafe(w, a, stop, answered, now);
    case Check(a, stage) => CheckKeepsSafe(w, a, stage, now);
    case Move(a, to, handover, fence) => MoveKeepsSafe(w, a, to, handover, fence, now);
    case Submit(a, stage, named, photos, pod) => SubmitKeepsSafe(w, a, stage, named, photos, pod);
    case Review(a, pod, approve, reason) => ReviewKeepsSafe(w, a, pod, approve, reason, now);
    case Crossing(side, entering) => CrossingKeepsSafe(w, side, entering, now);
    case Audit(open) => AuditKeepsSafe(w, open, now);
  }

  lemma FreshIsSafe(w: World)
    requires Fresh(w)
    ensures Safe(w)
  {
  }

  lemma {:induction false} LastCallKeepsSafe(w: World, before: seq<Event>, e: Event)
    requires Safe(Run(w, before)) && CleanEvent(Run(w, before), e)
    ensures Safe(Run(w, before + [e]))
  {
    RunExtends(w, before, e);
    CleanCallKeepsSafe(Run(w, before), e, |before|);
  }

  lemma RunExtends(w: World, before: seq<Event>, e: Event)
    ensures Run(w, before + [e]) == Apply(Run(w, before), e, |before|).world
    ensures CleanRun(w, before + [e]) <==> CleanRun(w, before) && CleanEvent(Run(w, before), e)
  {
  }

  lemma {:induction false} CleanRunsAreSafe(w: World, events: seq<Event>)
    requires Safe(w) && CleanRun(w, events)
    ensures Safe(Run(w, events))
    decreases |events|
  {
    if events != [] {
      var before, e := events[..|events| - 1], events[|events| - 1];
      assert events == before + [e];
      RunExtends(w, before, e);
      CleanRunsAreSafe(w, before);
      LastCallKeepsSafe(w, before, e);
    }
  }
}
