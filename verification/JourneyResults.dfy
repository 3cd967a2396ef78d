/** What a clean run promises, and the exact limits of what it promises. */
module JourneyResults {
  import opened Status
  import opened Stops
  import opened Journey
  import opened Walking
  import opened JourneySafety

  // ---- What every clean run keeps ------------------------------------------------------------

  /** A shipment at or past `unloaded` has every stop of its journey finished, of both kinds. */
  lemma {:induction false} UnloadedMeansEveryStopFinished(w: World, events: seq<Event>)
    requires Fresh(w) && CleanRun(w, events)
    ensures var v := Run(w, events);
            AtOrPast(v.shipment.status, SHIPMENT_UNLOADED) ==>
              forall i :: 0 <= i < |v.stops| ==> v.stops[i].finishedAt.Some?
  {
    FreshIsSafe(w);
    CleanRunsAreSafe(w, events);
    var v := Run(w, events);
    assert AllFinished(v, Load) && AllFinished(v, Unload) ==> forall i :: 0 <= i < |v.stops| ==>
           v.stops[i].finishedAt.Some?;
  }

  /** A stop is finished exactly when an approved POD names it; that POD is the only one and is the
      stop's pod_id; and a stage never has two PODs in review. */
  lemma {:induction false} FinishedByExactlyOnePod(w: World, events: seq<Event>, i: nat)
    requires Fresh(w) && CleanRun(w, events) && i < |Run(w, events).stops|
    ensures var v := Run(w, events);
            && (v.stops[i].finishedAt.Some? <==> exists p :: Names(v, p, i) && v.pods[p].status == PodApproved)
            && (forall p :: Names(v, p, i) && v.pods[p].status == PodApproved ==> v.stops[i].podId == Some(p))
            && (forall p, q, stage :: InReview(v, p, stage) && InReview(v, q, stage) ==> p == q)
  {
    FreshIsSafe(w);
    CleanRunsAreSafe(w, events);
    var v := Run(w, events);
    if v.stops[i].finishedAt.Some? { assert Names(v, v.stops[i].podId.value, i); }
  }

  lemma {:induction false} VisitedIsAPrefix(w: World, events: seq<Event>)
    requires Fresh(w) && CleanRun(w, events) && w.stops[0].kind == Load
    ensures Prefix(Run(w, events).stops)
  {
    FreshIsSafe(w);
    CleanRunsAreSafe(w, events);
    KindsNeverChange(w, events);
  }

  // ---- What a call can never do --------------------------------------------------------------

  lemma {:induction false} WalkOnlyClimbs(w: World, known: OrderStatus, actor: Actor, to: ShipmentStatus, role: Role,
      fence: Fence,
      now: Time)
    ensures var v := Walk(w, known, actor, to, role, fence, now).world;
            w.shipment.status <= v.shipment.status && SameButMoved(w, v)
    decreases SHIPMENT_UNKNOWN - w.shipment.status
  {
    var next := NextTowards(w.shipment.status, to);
    if next.Some? {
      var moved := Step(w, known, actor, next.value, role, fence, now);
      StepFacts(w, known, actor, next.value, role, fence, now);
      if moved.failure.None? { WalkOnlyClimbs(moved.world, known, actor, to, role, fence, now); }
    }
  }

  /** The same rows in the same places. */
  ghost predicate SamePoints(w: World, v: World) {
    && |v.stops| == |w.stops|
    && forall i :: 0 <= i < |w.stops| ==> v.stops[i].id == w.stops[i].id && v.stops[i].kind == w.stops[i].kind
  }

  ghost predicate Onward(w: World, v: World) { w.shipment.status <= v.shipment.status && SamePoints(w, v) }

  lemma StartGoesOn(w: World, a: Actor, stop: StopId, handover: bool, fence: Fence, now: Time)
    ensures Onward(w, StartStop(w, a, stop, handover, fence, now).world)
  {
    var i := IndexOf(w.stops, stop);
    if i >= 0 {
      WalkOnlyClimbs(WithStop(w, i, w.stops[i].(startedAt := Some(now))), w.order.status, a,
                     StatusForStop(w.stops[i].kind), MachineRole(a, w.order), fence, now);
    }
  }

  lemma MoveGoesOn(w: World, a: Actor, to: ShipmentStatus, handover: bool, fence: Fence, now: Time)
    ensures Onward(w, Advance(w, a, to, handover, fence, now).world)
  {
  }

  lemma ReviewGoesOn(w: World, a: Actor, pod: PodId, approve: bool, reason: bool, now: Time)
    ensures Onward(w, ReviewPod(w, a, pod, approve, reason, now).world)
  {
    if pod in w.pods {
      var c := Approved(w, pod, now);
      assert Onward(w, c) && c.order == w.order;
      EndStageOnlyClimbs(c, w.order.status, a, w.pods[pod].stage, now);
    }
  }

  /** No call of anybody takes the shipment back, or renames, reorders, adds or drops a stop. */
  lemma NoCallGoesBack(w: World, e: Event, now: Time)
    ensures Onward(w, Apply(w, e, now).world)
  {
    match e
    case Start(a, stop, handover, fence) => StartGoesOn(w, a, stop, handover, fence, now);
    case Move(a, to, handover, fence) => MoveGoesOn(w, a, to, handover, fence, now);
    case Review(a, pod, approve, reason) => ReviewGoesOn(w, a, pod, approve, reason, now);
    case _ =>
  }

  lemma EndStageOnlyClimbs(w: World, known: OrderStatus, actor: Actor, stage: Kind, now: Time)
    ensures var v := EndStage(w, known, actor, stage, now).world;
            w.shipment.status <= v.shipment.status && SameButMoved(w, v)
  {
    WalkOnlyClimbs(w, known, actor, StageEnds(stage).0, RoleSystem, NO_POSITION, now);
    WalkOnlyClimbs(Walk(w, known, actor, StageEnds(stage).0, RoleSystem, NO_POSITION, now).world, known, actor,
        StageEnds(stage).1, RoleSystem, NO_POSITION, now);
  }

  lemma {:induction false} KindsNeverChange(w: World, events: seq<Event>)
    ensures SamePoints(w, Run(w, events))
    decreases |events|
  {
    if events != [] {
      var before := events[..|events| - 1];
      KindsNeverChange(w, before);
      NoCallGoesBack(Run(w, before), events[|events| - 1], |before|);
    }
  }

  predicate Approves(e: Event) { e.Review? && e.approve }

  ghost predicate SameFinish(w: World, v: World) {
    && |v.stops| == |w.stops|
    && forall i :: 0 <= i < |w.stops| ==>
         v.stops[i].kind == w.stops[i].kind && v.stops[i].finishedAt == w.stops[i].finishedAt
  }

  ghost predicate FinishesNothing(w: World, v: World) {
    SameFinish(w, v) && StaysShort(w.shipment.status, v.shipment.status)
  }

  lemma StartFinishesNothing(w: World, a: Actor, stop: StopId, handover: bool, fence: Fence, now: Time)
    requires Linked(w) && LiveStatus(w.shipment.status) && CleanActor(a)
    ensures FinishesNothing(w, StartStop(w, a, stop, handover, fence, now).world)
  {
    var i := IndexOf(w.stops, stop);
    if i >= 0 {
      var started := WithStop(w, i, w.stops[i].(startedAt := Some(now)));
      assert SameFinish(w, started);
      DriverWalkStaysShort(started, a, StatusForStop(w.stops[i].kind), fence, now);
    }
  }

  lemma MoveFinishesNothing(w: World, a: Actor, to: ShipmentStatus, handover: bool, fence: Fence, now: Time)
    requires LiveStatus(w.shipment.status) && CleanActor(a)
    ensures FinishesNothing(w, Advance(w, a, to, handover, fence, now).world)
  {
    CleanRoleCannotSignOff(a, w.order);
    StepFacts(w, w.order.status, a, to, MachineRole(a, w.order), fence, now);
    if Advance(w, a, to, handover, fence, now).world != w {
      EdgeStaysShort(w.shipment.status, to, MachineRole(a, w.order));
    }
  }

  /** A clean call that is not an approval finishes no stop and signs nothing off. */
  lemma {:induction false} OnlyApprovalsFinish(w: World, e: Event, now: Time)
    requires Linked(w) && LiveStatus(w.shipment.status) && CleanEvent(w, e) && !Approves(e)
    ensures FinishesNothing(w, Apply(w, e, now).world)
  {
    match e
    case Arrive(a, stop, fence) =>
    case Start(a, stop, handover, fence) => StartFinishesNothing(w, a, stop, handover, fence, now);
    case CheckStop(a, stop, answered) =>
    case Check(a, stage) =>
    case Move(a, to, handover, fence) => MoveFinishesNothing(w, a, to, handover, fence, now);
    case Submit(a, stage, named, photos, pod) =>
    case Review(a, pod, approve, reason) =>
    case Crossing(side, entering) =>
    case Audit(open) =>
  }

  lemma SameFinishSameKinds(w: World, v: World)
    requires SameFinish(w, v)
    ensures forall kind :: AllFinished(v, kind) <==> AllFinished(w, kind)
  {
  }

  predicate MayDecide(w: World, a: Actor) { Involves(w.order, a.company) && MayReview(a, w.order) }

  /** Every other stop of the POD's stage is finished: its approval ends the stage. */
  ghost predicate LastOfItsStage(w: World, pod: PodId)
    requires pod in w.pods
  {
    forall i :: 0 <= i < |w.stops| && w.stops[i].kind == w.pods[pod].stage && Some(w.stops[i].id) != w.pods[pod].stopId
      ==> w.stops[i].finishedAt.Some?
  }

  /** The approval itself, before any walk. */
  lemma ApprovalClosesOneStage(w: World, pod: PodId, now: Time)
    requires Safe(w) && pod in w.pods && w.pods[pod].status == PodSubmitted
    ensures var c := Approved(w, pod, now);
            && (StageDone(c, pod) <==> LastOfItsStage(w, pod))
            && (forall kind :: kind != w.pods[pod].stage && AllFinished(c, kind) ==> AllFinished(w, kind))
  {
    var c := Approved(w, pod, now);
    ApprovalClosesRow(w, pod, now);
    assert |c.stops| == |w.stops| && c.pods[pod].stage == w.pods[pod].stage && c.pods[pod].stopId == w.pods[pod].stopId;
    assert forall k :: 0 <= k < |w.stops| ==>
      c.stops[k].kind == w.stops[k].kind && c.stops[k].id == w.stops[k].id
          && (c.stops[k] == w.stops[k] || Names(w, pod, k));
  }

  ghost predicate Outcome(w: World, stage: Kind, last: bool, r: Reply) {
    && r.world.shipment.status == (if last then SignedOff(stage, w.shipment.status) else w.shipment.status)
    && (r.failure.None? <==> !last || SignOffSucceeds(stage, w.shipment.status))
    && (last ==> AllFinished(r.world, stage))
    && (forall kind :: AllFinished(w, kind) ==> AllFinished(r.world, kind))
    && (forall kind :: kind != stage && AllFinished(r.world, kind) ==> AllFinished(w, kind))
    && (forall st :: NoneInReview(w, st) ==> NoneInReview(r.world, st))
    && NoneInReview(r.world, stage)
    && Linked(r.world)
  }

  lemma EndStageOutcome(c: World, a: Actor, stage: Kind, now: Time)
    requires Linked(c) && PodsSafe(c) && StartedWasReached(c) && PrefixSafe(c) && LiveStatus(c.shipment.status)
    requires AllFinished(c, stage) && NoneInReview(c, stage)
    ensures Outcome(c, stage, true, EndStage(c, c.order.status, a, stage, now))
  {
    EndStageSignsOff(c, a, stage, now);
    MovedKeepsRest(c, EndStage(c, c.order.status, a, stage, now).world);
  }

  /** What an approval leaves behind: the stage's walks, exactly when its last stop is closed. */
  lemma {:induction false} ApprovalOutcome(w: World, a: Actor, pod: PodId, reason: bool, now: Time)
    requires Safe(w) && pod in w.pods && w.pods[pod].status == PodSubmitted && MayDecide(w, a)
    ensures Outcome(w, w.pods[pod].stage, LastOfItsStage(w, pod), ReviewPod(w, a, pod, true, reason, now))
  {
    ApprovalFacts(w, pod, now);
    ApprovalKeepsRest(w, pod, now);
    ApprovalClosesOneStage(w, pod, now);
    if LastOfItsStage(w, pod) { EndStageOutcome(Approved(w, pod, now), a, w.pods[pod].stage, now); }
  }
}
