/** Goods are collected before they are delivered: on every journey, in whatever order it visits its
    points, an unloading stop is visited only after every loading stop before it. */
module JourneyOrder {
  import opened Status
  import opened Stops
  import opened Journey
  import opened Walking
  import opened JourneySafety
  import opened JourneyResults

  ghost predicate LoadsVisitedBefore(stops: seq<Stop>, i: int) {
    forall k :: 0 <= k < i < |stops| && stops[k].kind == Load ==> stops[k].Visited()
  }

  /** It holds of the unloading stops visited, and of those whose POD is in review. */
  ghost predicate LoadsFirst(w: World) {
    && (forall i :: 0 <= i < |w.stops| && w.stops[i].kind == Unload && w.stops[i].Visited() ==>
          LoadsVisitedBefore(w.stops, i))
    && (forall p, i :: Names(w, p, i) && w.pods[p].status == PodSubmitted && w.stops[i].kind == Unload ==>
          LoadsVisitedBefore(w.stops, i))
  }

  /** Only row `at` may become visited, and then as the next one. */
  lemma RowsKeepLoadsFirst(w: World, v: World, at: int)
    requires LoadsFirst(w) && SameRows(w, v)
    requires forall i :: 0 <= i < |w.stops| && i != at ==> v.stops[i].arrivedAt == w.stops[i].arrivedAt
    requires 0 <= at < |w.stops| && v.stops[at].Visited() && !w.stops[at].Visited() ==> IsNext(w.stops, at)
    ensures LoadsFirst(v)
  {
    forall i | 0 <= i < |w.stops| ensures w.stops[i].Visited() ==> v.stops[i].Visited() {}
    forall i | 0 <= i < |w.stops| ensures LoadsVisitedBefore(w.stops, i) ==> LoadsVisitedBefore(v.stops, i) {}
    forall p, i ensures Names(v, p, i) <==> Names(w, p, i) {}
  }

  lemma ArrivalKeepsLoadsFirst(w: World, a: Actor, stop: StopId, fence: Fence, now: Time)
    requires LoadsFirst(w)
    ensures LoadsFirst(ArriveAtStop(w, a, stop, fence, now).world)
  {
    var i := IndexOf(w.stops, stop);
    RowsKeepLoadsFirst(w, ArriveAtStop(w, a, stop, fence, now).world, i);
  }

  lemma StartReachesNothing(w: World, a: Actor, stop: StopId, handover: bool, fence: Fence, now: Time)
    ensures var v := StartStop(w, a, stop, handover, fence, now).world;
            SameRows(w, v) && forall i :: 0 <= i < |w.stops| ==> v.stops[i].arrivedAt == w.stops[i].arrivedAt
  {
    var i := IndexOf(w.stops, stop);
    if i >= 0 {
      WalkOnlyClimbs(WithStop(w, i, w.stops[i].(startedAt := Some(now))), w.order.status, a,
                     StatusForStop(w.stops[i].kind), MachineRole(a, w.order), fence, now);
    }
  }

  lemma StartKeepsLoadsFirst(w: World, a: Actor, stop: StopId, handover: bool, fence: Fence, now: Time)
    requires LoadsFirst(w)
    ensures LoadsFirst(StartStop(w, a, stop, handover, fence, now).world)
  {
    StartReachesNothing(w, a, stop, handover, fence, now);
    RowsKeepLoadsFirst(w, StartStop(w, a, stop, handover, fence, now).world, -1);
  }

  /** A submission that is accepted is for a stop whose loading stops have been visited: the stop has
      been reached itself, or the shipment reads `unloading` and, this stop being open, all loading
      stops are finished. */
  lemma AcceptedUnloadHasLoads(w: World, i: nat)
    requires Safe(w) && LoadsFirst(w)
    requires i < |w.stops| && w.stops[i].kind == Unload && w.stops[i].finishedAt.None?
    requires SubmitRefusal(w, Unload, Some(w.stops[i].id)).None?
    ensures LoadsVisitedBefore(w.stops, i)
  {
    var at := StopByID(w, Some(w.stops[i].id));
    if at >= 0 { DistinctRows(w, at, i); }
    if !StopDriven(w, at) {
      assert !AllFinished(w, Unload);
      assert AllFinished(w, Load);
    }
  }

  lemma SubmissionKeepsLoadsFirst(w: World, a: Actor, stage: Kind, named: Option<StopId>, photos: bool, id: PodId)
    requires Safe(w) && LoadsFirst(w) && id !in w.pods
    requires named.Some? ==> exists k :: 0 <= k < |w.stops| && w.stops[k].id == named.value && w.stops[k].kind == stage
    ensures LoadsFirst(SubmitPod(w, a, stage, named, photos, id).world)
  {
    var v := SubmitPod(w, a, stage, named, photos, id).world;
    var stop := ResolveStop(w, stage, named);
    if v != w {
      var i := AcceptedSubmissionNamesOpenStop(w, stage, named);
      if stage == Unload { AcceptedUnloadHasLoads(w, i); }
      forall p, k | Names(v, p, k) && v.pods[p].status == PodSubmitted && v.stops[k].kind == Unload
        ensures LoadsVisitedBefore(v.stops, k)
      {
        if p == id { DistinctRows(w, k, i); } else { assert Names(w, p, k); }
      }
    }
  }

  /** The stop an approval closes had its loading stops visited when its POD was submitted. */
  lemma ClosingKeepsLoadsFirst(w: World, pod: PodId, now: Time)
    requires PodsSafe(w) && LoadsFirst(w) && pod in w.pods && w.pods[pod].status == PodSubmitted
    ensures LoadsFirst(Approved(w, pod, now))
  {
    var v := Approved(w, pod, now);
    ApprovalClosesRow(w, pod, now);
    assert |v.stops| == |w.stops|;
    forall k | 0 <= k < |w.stops| ensures w.stops[k].Visited() ==> v.stops[k].Visited() {}
    forall k | 0 <= k < |w.stops| ensures LoadsVisitedBefore(w.stops, k) ==> LoadsVisitedBefore(v.stops, k) {}
    forall p, k | Names(v, p, k) && v.pods[p].status == PodSubmitted ensures Names(w, p, k) && p != pod {}
    forall k | 0 <= k < |w.stops| && v.stops[k].kind == Unload && v.stops[k].Visited()
      ensures LoadsVisitedBefore(v.stops, k)
    {
      assert w.stops[k].Visited() || Names(w, pod, k);
    }
  }

  lemma {:induction false} ReviewKeepsLoadsFirst(w: World, a: Actor, pod: PodId, approve: bool, reason: bool, now: Time)
    requires Safe(w) && LoadsFirst(w)
    ensures LoadsFirst(ReviewPod(w, a, pod, approve, reason, now).world)
  {
    var v := ReviewPod(w, a, pod, approve, reason, now).world;
    if v != w && approve {
      ClosingKeepsLoadsFirst(w, pod, now);
      EndStageOnlyClimbs(Approved(w, pod, now), w.order.status, a, w.pods[pod].stage, now);
      RowsKeepLoadsFirst(Approved(w, pod, now), v, -1);
    } else if v != w {
      forall p, k | Names(v, p, k) && v.pods[p].status == PodSubmitted ensures Names(w, p, k) {}
    }
  }

  lemma CheckStopKeepsLoadsFirst(w: World, a: Actor, stop: StopId, answered: bool, now: Time)
    requires LoadsFirst(w)
    ensures LoadsFirst(CheckStopCargo(w, a, stop, answered, now).world)
  {
    RowsKeepLoadsFirst(w, CheckStopCargo(w, a, stop, answered, now).world, -1);
  }

  lemma ReportKeepsLoadsFirst(w: World, v: World)
    requires LoadsFirst(w) && v.stops == w.stops && v.pods == w.pods
    ensures LoadsFirst(v)
  {
    RowsKeepLoadsFirst(w, v, -1);
  }

  lemma MoveKeepsLoadsFirst(w: World, a: Actor, to: ShipmentStatus, handover: bool, fence: Fence, now: Time)
    requires LoadsFirst(w)
    ensures LoadsFirst(Advance(w, a, to, handover, fence, now).world)
  {
    StepFacts(w, w.order.status, a, to, MachineRole(a, w.order), fence, now);
    ReportKeepsLoadsFirst(w, Advance(w, a, to, handover, fence, now).world);
  }

  lemma {:induction false} CallKeepsLoadsFirst(w: World, e: Event, now: Time)
    requires Safe(w) && CleanEvent(w, e) && LoadsFirst(w)
    ensures LoadsFirst(Apply(w, e, now).world)
  {
    match e
    case Arrive(a, stop, fence) => ArrivalKeepsLoadsFirst(w, a, stop, fence, now);
    case Start(a, stop, handover, fence) => StartKeepsLoadsFirst(w, a, stop, handover, fence, now);
    case CheckStop(a, stop, answered) => CheckStopKeepsLoadsFirst(w, a, stop, answered, now);
    case Check(a, stage) => ReportKeepsLoadsFirst(w, CargoCheck(w, a, stage, now).world);
    case Move(a, to, handover, fence) => MoveKeepsLoadsFirst(w, a, to, handover, fence, now);
    case Submit(a, stage, named, photos, pod) => SubmissionKeepsLoadsFirst(w, a, stage, named, photos, pod);
    case Review(a, pod, approve, reason) => ReviewKeepsLoadsFirst(w, a, pod, approve, reason, now);
    case Crossing(side, entering) => ReportKeepsLoadsFirst(w, Evidence(w, side, entering, now).world);
    case Audit(open) => ReportKeepsLoadsFirst(w, FieldAudit(w, open, now).world);
  }

  lemma {:induction false} CleanRunsKeepLoadsFirst(w: World, events: seq<Event>)
    requires Fresh(w) && CleanRun(w, events)
    ensures LoadsFirst(Run(w, events))
    decreases |events|
  {
    if events != [] {
      var before, e := events[..|events| - 1], events[|events| - 1];
      assert events == before + [e];
      RunExtends(w, before, e);
      CleanRunsKeepLoadsFirst(w, before);
      FreshIsSafe(w);
      CleanRunsAreSafe(w, before);
      CallKeepsLoadsFirst(Run(w, before), e, |before|);
    }
  }

  /** In every clean run of any journey, a visited unloading stop has every loading stop before it
      visited, also where the visited stops are no prefix. */
  lemma {:induction false} UnloadingComesAfterItsLoads(w: World, events: seq<Event>, i: nat, j: nat)
    requires Fresh(w) && CleanRun(w, events)
    requires i < j < |w.stops| && w.stops[i].kind == Load && w.stops[j].kind == Unload
    ensures var stops := Run(w, events).stops;
            |stops| == |w.stops| && (stops[j].Visited() ==> stops[i].Visited())
  {
    CleanRunsKeepLoadsFirst(w, events);
    KindsNeverChange(w, events);
  }
}
