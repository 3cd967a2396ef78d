/** What the calls about photos and unloading do, said of the rows themselves: which submissions are
    taken, what a decision leaves behind and for how long, and what the receiver's code guards. */
module PodLaws {
  import opened Status
  import opened Stops
  import opened Journey
  import opened Walking
  import opened JourneySafety
  import opened JourneyResults
  import opened JourneyLimits
  import opened JourneyLaws

  // ---- Submissions ---------------------------------------------------------------------------

  /** The stop row is the gate of its own photos on a journey of more than two points, except for the
      first point of a kind until its work has begun. */
  predicate RowIsTheGate(w: World, k: nat)
    requires k < |w.stops|
  {
    |w.stops| > 2 &&
    (w.stops[k].startedAt.Some? || exists j :: 0 <= j < k && w.stops[j].kind == w.stops[k].kind)
  }

  predicate AnswersForCargo(w: World, k: nat)
    requires k < |w.stops|
  {
    if RowIsTheGate(w, k) then w.stops[k].cargoCheckedAt.Some?
    else if w.stops[k].kind == Load then w.shipment.loadingCheckedAt.Some?
    else w.shipment.unloadingCheckedAt.Some?
  }

  predicate AtWork(w: World, k: nat)
    requires k < |w.stops|
  {
    if RowIsTheGate(w, k) then w.stops[k].startedAt.Some? && w.stops[k].finishedAt.None?
    else w.shipment.status == if w.stops[k].kind == Load then SHIPMENT_LOADING else SHIPMENT_UNLOADING
  }

  ghost predicate HasApprovedPhotos(w: World, k: nat)
    requires k < |w.stops|
  {
    exists p :: p in w.pods && w.pods[p] == Pod(w.stops[k].kind, Some(w.stops[k].id), PodApproved)
  }

  /** Photos of a stop are taken exactly when an entitled party sends some for a stop at work, its cargo
      checked (at unloading only where the receiver answers on the web) and nothing approved for it yet.
      They replace what is in review for the stage and nothing else. */
  lemma {:induction false} SubmissionIsTakenIff(w: World, a: Actor, k: nat, photos: bool, pod: PodId)
    requires DistinctIds(w.stops) && k < |w.stops|
    ensures var stage, stop := w.stops[k].kind, Some(w.stops[k].id);
            var r := SubmitPod(w, a, stage, stop, photos, pod);
            var allowed := && ActsForShipment(w, a) && AtWork(w, k)
                           && (stage == Load || w.webField ==> AnswersForCargo(w, k))
                           && photos && !HasApprovedPhotos(w, k);
            && (r.failure.None? <==> allowed)
            && (!allowed ==> r.world == w)
            && (r.failure == Some(Forbidden) <==> !ActsForShipment(w, a))
            && (allowed ==> Submitted(w, stage, stop, pod, r.world))
  {
    DistinctRows(w, IndexOf(w.stops, w.stops[k].id), k);
    var first := FirstOfKind(w.stops, w.stops[k].kind);
    assert first <= k;
    assert first == k <==> !exists j :: 0 <= j < k && w.stops[j].kind == w.stops[k].kind;
    assert HasApprovedPhotos(w, k) <==> HasApproved(w.pods, w.stops[k].kind, Some(w.stops[k].id)) by {
      forall p | p in w.pods
        ensures IsApprovedFor(w.pods[p], w.stops[k].kind, Some(w.stops[k].id)) <==>
                w.pods[p] == Pod(w.stops[k].kind, Some(w.stops[k].id), PodApproved)
      {
      }
    }
  }

  ghost predicate Submitted(w: World, stage: Kind, stop: Option<StopId>, pod: PodId, v: World) {
    && v == w.(pods := v.pods)
    && pod in v.pods && v.pods[pod] == Pod(stage, stop, PodSubmitted)
    && forall p :: p != pod ==>
         && (p in v.pods <==> p in w.pods && !(w.pods[p].stage == stage && w.pods[p].status == PodSubmitted))
         && (p in v.pods ==> v.pods[p] == w.pods[p])
  }

  /** Photos that name no stop are for the first one of the stage still open, in visit order. */
  lemma UnnamedIsTheFirstOpen(w: World, a: Actor, stage: Kind, photos: bool, pod: PodId, k: nat)
    requires k < |w.stops| && w.stops[k].kind == stage && w.stops[k].finishedAt.None?
    requires forall j :: 0 <= j < k && w.stops[j].kind == stage ==> w.stops[j].finishedAt.Some?
    ensures SubmitPod(w, a, stage, None, photos, pod) == SubmitPod(w, a, stage, Some(w.stops[k].id), photos, pod)
  {
    FirstOpenIsFirst(w.stops, stage, k, 0);
  }

  lemma {:induction false} FirstOpenIsFirst(stops: seq<Stop>, stage: Kind, k: nat, i: nat)
    requires i <= k < |stops| && stops[k].kind == stage && stops[k].finishedAt.None?
    requires forall j :: i <= j < k && stops[j].kind == stage ==> stops[j].finishedAt.Some?
    ensures FirstOpen(stops, stage, i) == k
    decreases k - i
  {
    if i < k { FirstOpenIsFirst(stops, stage, k, i + 1); }
  }

  /** Somebody answered for the cargo of this POD. */
  ghost predicate CargoAnswered(w: World, stop: Option<StopId>) {
    w.shipment.loadingCheckedAt.Some? || exists i :: CheckedRow(w, i, stop)
  }

  predicate CheckedRow(w: World, i: int, stop: Option<StopId>) {
    0 <= i < |w.stops| && stop == Some(w.stops[i].id) && w.stops[i].cargoCheckedAt.Some?
  }

  ghost predicate LoadingIsChecked(w: World) {
    forall p :: p in w.pods && w.pods[p].stage == Load ==> CargoAnswered(w, w.pods[p].stopId)
  }

  lemma AnswersStay(w: World, e: Event, now: Time, stop: Option<StopId>)
    requires CargoAnswered(w, stop)
    ensures CargoAnswered(Apply(w, e, now).world, stop)
  {
    var v := Apply(w, e, now).world;
    OnlyItsOwnVisit(w, e, now);
    OnlyItsOwnCheck(w, e, now);
    NoCallGoesBack(w, e, now);
    if w.shipment.loadingCheckedAt.None? {
      var i :| CheckedRow(w, i, stop);
      assert CheckedRow(v, i, stop);
    }
  }

  /** A review decides the POD it names, if that is in review, and touches no other. */
  lemma ReviewTouchesOnePod(w: World, a: Actor, pod: PodId, approve: bool, reason: bool, now: Time)
    ensures var r := ReviewPod(w, a, pod, approve, reason, now);
            if pod in w.pods && w.pods[pod].status == PodSubmitted then
              r.world.pods == w.pods
                  || r.world.pods == w.pods[pod := w.pods[pod].(status := if approve then PodApproved else PodRejected)]
            else r.failure.Some? && r.world == w
  {
    if pod in w.pods {
      EndStageOnlyClimbs(Approved(w, pod, now), w.order.status, a, w.pods[pod].stage, now);
    }
  }

  /** A POD on record after a call is the one submitted by it or was on record, for the same stop. */
  lemma {:induction false} PodsComeFromSubmissions(w: World, e: Event, now: Time, p: PodId)
    requires p in Apply(w, e, now).world.pods
    ensures var pod := Apply(w, e, now).world.pods[p];
            || (p in w.pods && w.pods[p].stage == pod.stage && w.pods[p].stopId == pod.stopId)
            || (e.Submit? && p == e.pod && pod == Pod(e.stage, ResolveStop(w, e.stage, e.named), PodSubmitted)
                && SubmitRefusal(w, e.stage, pod.stopId).None?)
  {
    if e.Review? {
      ReviewTouchesOnePod(w, e.actor, e.pod, e.approve, e.reason, now);
    } else if !e.Submit? {
      OthersKeepPods(w, e, now);
    }
  }

  /** After any calls by anybody, administrators included, somebody answered for the cargo of every
      loading POD on record: at its stop, or for the shipment. */
  lemma {:induction false} LoadingPodsWereChecked(w: World, events: seq<Event>)
    requires w.pods == map[]
    ensures LoadingIsChecked(Run(w, events))
    decreases |events|
  {
    if events != [] {
      var before, e := events[..|events| - 1], events[|events| - 1];
      var m := Run(w, before);
      LoadingPodsWereChecked(w, before);
      forall p | p in Run(w, events).pods && Run(w, events).pods[p].stage == Load
        ensures CargoAnswered(Run(w, events), Run(w, events).pods[p].stopId)
      {
        PodsComeFromSubmissions(m, e, |before|, p);
        var stop := Run(w, events).pods[p].stopId;
        if !(p in m.pods && m.pods[p].stage == Load && m.pods[p].stopId == stop) { SubmissionIsAnswered(m, stop); }
        AnswersStay(m, e, |before|, stop);
      }
    }
  }

  lemma SubmissionIsAnswered(w: World, stop: Option<StopId>)
    requires SubmitRefusal(w, Load, stop).None?
    ensures CargoAnswered(w, stop)
  {
    var i := StopByID(w, stop);
    if StopDriven(w, i) { assert CheckedRow(w, i, stop); }
  }

  // ---- Decisions -----------------------------------------------------------------------------

  /** May decide on photos: anybody of a party but a driver at work. */
  predicate Decides(w: World, a: Actor) { IsParty(w, a) && !IsPlainDriver(a) }

  ghost predicate OnlyDecided(w: World, pod: PodId, status: PodStatus, v: World)
    requires pod in w.pods
  {
    && v.pods.Keys == w.pods.Keys
    && v.pods[pod] == Pod(w.pods[pod].stage, w.pods[pod].stopId, status)
    && forall p :: p in w.pods && p != pod ==> v.pods[p] == w.pods[p]
  }

  /** A rejection is taken exactly when one who may decide gives a reason for photos in review; it
      leaves that POD rejected and everything else as it was. Any other one changes nothing. */
  lemma RejectionIsRecordedIff(w: World, a: Actor, pod: PodId, reason: bool, now: Time)
    ensures var r := ReviewPod(w, a, pod, false, reason, now);
            var allowed := Decides(w, a) && pod in w.pods && w.pods[pod].status == PodSubmitted && reason;
            && (r.failure.None? <==> allowed)
            && (!allowed ==> r.world == w)
            && (allowed ==> OnlyDecided(w, pod, PodRejected, r.world) && r.world == w.(pods := r.world.pods))
            && (r.failure == Some(Forbidden) <==> !Decides(w, a))
            && (r.failure == Some(NotFound) <==> Decides(w, a) && pod !in w.pods)
            && (r.failure == Some(Conflict) <==> Decides(w, a) && pod in w.pods && w.pods[pod].status != PodSubmitted)
  {
  }

  /** An approval is recorded exactly when one who may decide finds the photos in review, also when the
      walk that follows is refused. It finishes the stop the POD names, now, and no other row changes. */
  lemma {:induction false} ApprovalIsRecordedIff(w: World, a: Actor, pod: PodId, reason: bool, now: Time)
    requires DistinctIds(w.stops)
    ensures var r := ReviewPod(w, a, pod, true, reason, now);
            var allowed := Decides(w, a) && pod in w.pods && w.pods[pod].status == PodSubmitted;
            && (!allowed ==> r.failure.Some? && r.world == w)
            && (allowed ==> OnlyDecided(w, pod, PodApproved, r.world))
            && (allowed ==> OnlyFinished(w, w.pods[pod].stopId, pod, now, r.world))
  {
    if pod in w.pods {
      EndStageOnlyClimbs(Approved(w, pod, now), w.order.status, a, w.pods[pod].stage, now);
    }
  }

  ghost predicate OnlyFinished(w: World, stop: Option<StopId>, pod: PodId, now: Time, v: World) {
    && |v.stops| == |w.stops|
    && forall k :: 0 <= k < |w.stops| ==>
         v.stops[k] == if stop == Some(w.stops[k].id) then w.stops[k].(finishedAt := Some(now), podId := Some(pod))
                       else w.stops[k]
  }

  /** Every submission of the run has an id of its own. */
  ghost predicate NewIds(w: World, events: seq<Event>) {
    forall n :: 0 <= n < |events| && events[n].Submit? ==> events[n].pod !in Run(w, events[..n]).pods
  }

  lemma NewIdsBefore(w: World, events: seq<Event>)
    requires NewIds(w, events) && events != []
    ensures var before, e := events[..|events| - 1], events[|events| - 1];
            NewIds(w, before) && (e.Submit? ==> e.pod !in Run(w, before).pods)
  {
    var before := events[..|events| - 1];
    assert forall m :: 0 <= m < |before| ==> before[..m] == events[..m];
  }

  predicate IsDecided(w: World, pod: PodId) { pod in w.pods && w.pods[pod].status != PodSubmitted }

  ghost predicate NothingDecided(w: World, a: Actor, pod: PodId, approve: bool, reason: bool, now: Time) {
    ReviewPod(w, a, pod, approve, reason, now).failure.Some? && ReviewPod(w, a, pod, approve, reason, now).world == w
  }

  lemma {:induction false} DecisionStands(w: World, e: Event, now: Time, pod: PodId)
    requires IsDecided(w, pod) && (e.Submit? ==> e.pod != pod)
    ensures pod in Apply(w, e, now).world.pods && Apply(w, e, now).world.pods[pod] == w.pods[pod]
    ensures e.Review? && e.pod == pod ==> Apply(w, e, now).failure.Some? && Apply(w, e, now).world == w
  {
    if e.Review? {
      ReviewTouchesOnePod(w, e.actor, e.pod, e.approve, e.reason, now);
    } else if !e.Submit? {
      OthersKeepPods(w, e, now);
    }
  }

  /** Decided photos stay as they were decided, whatever anybody calls, and no later review of them is
      taken or changes anything. */
  lemma {:induction false} DecisionsStandForever(w: World, events: seq<Event>, n: nat, pod: PodId)
    requires NewIds(w, events) && n <= |events| && IsDecided(Run(w, events[..n]), pod)
    ensures var v := Run(w, events);
            && pod in v.pods && v.pods[pod] == Run(w, events[..n]).pods[pod]
            && forall a, approve, reason, now :: NothingDecided(v, a, pod, approve, reason, now)
    decreases |events|
  {
    if n == |events| {
      assert events[..n] == events;
    } else {
      var before := events[..|events| - 1];
      assert before[..n] == events[..n];
      NewIdsBefore(w, events);
      DecisionsStandForever(w, before, n, pod);
      DecisionStands(Run(w, before), events[|before|], |before|, pod);
    }
  }

  // ---- The receiver's code -------------------------------------------------------------------

  /** A driver's work on an unloading stop began by a call that carried the receiver's code. */
  lemma UnloadingStartCarriedTheCode(w: World, e: Event, now: Time, k: nat)
    requires k < |w.stops| && w.stops[k].kind == Unload && w.stops[k].startedAt.None?
    requires |Apply(w, e, now).world.stops| == |w.stops| && Apply(w, e, now).world.stops[k].startedAt.Some?
    ensures e.Start? && e.stop == w.stops[k].id && (IsPlainDriver(e.actor) ==> e.handover)
  {
    OnlyItsOwnVisit(w, e, now);
    var i := IndexOf(w.stops, e.stop);
    if i >= 0 {
      WalkOnlyClimbs(WithStop(w, i, w.stops[i].(startedAt := Some(now))), w.order.status, e.actor,
                     StatusForStop(w.stops[i].kind), MachineRole(e.actor, w.order), e.fence, now);
    }
  }

  predicate Unloads(s: ShipmentStatus) { AtOrPast(s, SHIPMENT_UNLOADING) }

  predicate CarriesCode(e: Event) { (e.Start? || e.Move?) && e.handover && IsPlainDriver(e.actor) }

  lemma OnlyDriversEnterUnloading(from: ShipmentStatus, to: ShipmentStatus, role: Role)
    requires CanTransitionShipment(from, to, role) == Allowed && !IsSignOff(role) && !Unloads(from) && LiveStatus(from)
    ensures Unloads(to) ==> role == RoleDriver && to == SHIPMENT_UNLOADING
  {
  }

  lemma {:induction false} OnlyDriversReachUnloading(actor: Actor, from: ShipmentStatus, to: ShipmentStatus, role: Role,
      fence: Fence)
    requires !IsSignOff(role) && !Unloads(from) && LiveStatus(from) && LiveStatus(to)
    requires role == RoleDriver ==> !Unloads(to)
    ensures !Unloads(Reach(actor, from, to, role, fence))
    decreases SHIPMENT_UNKNOWN - from
  {
    var next := NextTowards(from, to);
    if next.Some? && Permits(actor, from, next.value, role, fence) {
      LiveStepsOnly(from, to);
      OnlyDriversEnterUnloading(from, next.value, role);
      OnlyDriversReachUnloading(actor, next.value, to, role, fence);
    }
  }

  lemma StartWithoutCode(w: World, a: Actor, stop: StopId, handover: bool, fence: Fence, now: Time)
    requires Linked(w) && LiveStatus(w.shipment.status) && !Unloads(w.shipment.status) && CleanActor(a)
    requires !(handover && IsPlainDriver(a))
    ensures !Unloads(StartStop(w, a, stop, handover, fence, now).world.shipment.status)
  {
    var i := IndexOf(w.stops, stop);
    if i >= 0 && StartStop(w, a, stop, handover, fence, now).world != w {
      var started := WithStop(w, i, w.stops[i].(startedAt := Some(now)));
      var to, role := StatusForStop(w.stops[i].kind), MachineRole(a, w.order);
      CleanRoleCannotSignOff(a, w.order);
      WalkGoesAsFarAsItMay(started, w.order.status, a, to, role, fence, now);
      OnlyDriversReachUnloading(a, w.shipment.status, to, role, fence);
    }
  }

  lemma MoveWithoutCode(w: World, a: Actor, to: ShipmentStatus, handover: bool, fence: Fence, now: Time)
    requires LiveStatus(w.shipment.status) && !Unloads(w.shipment.status) && CleanActor(a)
    requires !(handover && IsPlainDriver(a))
    ensures !Unloads(Advance(w, a, to, handover, fence, now).world.shipment.status)
  {
    var role := MachineRole(a, w.order);
    CleanRoleCannotSignOff(a, w.order);
    StepFacts(w, w.order.status, a, to, role, fence, now);
    if Advance(w, a, to, handover, fence, now).world != w { OnlyDriversEnterUnloading(w.shipment.status, to, role); }
  }

  lemma ReviewOpensNoUnloading(w: World, a: Actor, pod: PodId, approve: bool, reason: bool, now: Time)
    requires Linked(w) && LiveStatus(w.shipment.status) && !Unloads(w.shipment.status)
    ensures !Unloads(ReviewPod(w, a, pod, approve, reason, now).world.shipment.status)
  {
    if pod in w.pods {
      var c := Approved(w, pod, now);
      assert c.shipment == w.shipment && c.order == w.order;
      EndStageSignsOff(c, a, w.pods[pod].stage, now);
    }
  }

  /** No clean call but a driver's with the receiver's code takes the shipment into `unloading`. */
  lemma {:induction false} OnlyTheCodeOpensUnloading(w: World, e: Event, now: Time)
    requires Linked(w) && LiveStatus(w.shipment.status) && CleanEvent(w, e) && !Unloads(w.shipment.status)
    ensures Unloads(Apply(w, e, now).world.shipment.status) ==> CarriesCode(e)
  {
    if !CarriesCode(e) {
      match e
      case Start(a, stop, handover, fence) => StartWithoutCode(w, a, stop, handover, fence, now);
      case Move(a, to, handover, fence) => MoveWithoutCode(w, a, to, handover, fence, now);
      case Review(a, pod, approve, reason) => ReviewOpensNoUnloading(w, a, pod, approve, reason, now);
      case _ =>
    }
  }

  lemma RunWithoutCode(w: World, before: seq<Event>, e: Event)
    requires Fresh(w) && CleanRun(w, before + [e]) && !CarriesCode(e)
    requires !Unloads(Run(w, before).shipment.status)
    ensures !Unloads(Run(w, before + [e]).shipment.status)
  {
    RunExtends(w, before, e);
    FreshIsSafe(w);
    CleanRunsAreSafe(w, before);
    OnlyTheCodeOpensUnloading(Run(w, before), e, |before|);
  }

  /** A clean run without the receiver's code never unloads: the shipment stays short of `unloading`,
      or is cancelled, and so never gets to `unloaded`. */
  lemma {:induction false} NothingIsUnloadedWithoutTheCode(w: World, events: seq<Event>)
    requires Fresh(w) && CleanRun(w, events)
    requires forall n :: 0 <= n < |events| ==> !((events[n].Start? || events[n].Move?) && events[n].handover)
    ensures var s := Run(w, events).shipment.status;
            s == SHIPMENT_CANCELLED || s < SHIPMENT_UNLOADING
  {
    NeverUnloads(w, events);
    FreshIsSafe(w);
    CleanRunsAreSafe(w, events);
  }

  lemma {:induction false} NeverUnloads(w: World, events: seq<Event>)
    requires Fresh(w) && CleanRun(w, events)
    requires forall n :: 0 <= n < |events| ==> !CarriesCode(events[n])
    ensures !Unloads(Run(w, events).shipment.status)
    decreases |events|
  {
    if events != [] {
      var before, e := events[..|events| - 1], events[|events| - 1];
      assert events == before + [e];
      NeverUnloads(w, before);
      RunWithoutCode(w, before, e);
    }
  }
}
