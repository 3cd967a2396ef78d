/** Runs that every journey of a certain shape has, and with them exactly which journeys keep the
    expected invariants in all clean runs. */
module JourneyRuns {
  import opened Status
  import opened Stops
  import opened Journey
  import opened Walking
  import opened JourneySafety
  import opened JourneyResults
  import opened JourneyLimits

  const OPEN := Fence(false, false, false, false, false)

  function Driver(w: World): Actor
    requires w.shipment.driver.Some?
  {
    Actor(w.shipment.driver.value, if w.order.transporter.Some? then w.order.transporter.value else w.order.shipper,
          RoleDriver, false)
  }

  function Planner(w: World): Actor { Actor(0, w.order.shipper, RoleShipper, false) }

  // ---- A journey that starts with an unloading point -----------------------------------------

  /** The driver has moved the shipment alone: no stop and no POD has been touched. */
  ghost predicate Untouched(w: World, v: World, s: ShipmentStatus) {
    && v.stops == w.stops && v.pods == map[] && v.shipment.status == s
    && v.shipment.driver == w.shipment.driver && v.order.shipper == w.order.shipper
    && v.order.transporter == w.order.transporter
  }

  lemma DriverMoves(w: World, v: World, s: ShipmentStatus, to: ShipmentStatus, now: Time)
    requires w.shipment.driver.Some? && Untouched(w, v, s)
    requires ShipmentEdge(s, to) == Only(DriverAlone) && to != SHIPMENT_UNLOADING && !ShipmentIsFinal(s)
             && s != SHIPMENT_UNKNOWN
    ensures Untouched(w, Apply(v, Move(Driver(w), to, true, OPEN), now).world, to)
  {
  }

  lemma ReachesLoading(w: World) returns (events: seq<Event>)
    requires Fresh(w) && w.shipment.driver.Some?
    ensures CleanRun(w, events) && Untouched(w, Run(w, events), SHIPMENT_LOADING)
  {
    var d := Driver(w);
    DriverMoves(w, w, SHIPMENT_ASSIGNED, SHIPMENT_TO_LOADING, 0);
    var e1 := [] + [Move(d, SHIPMENT_TO_LOADING, true, OPEN)];
    RunExtends(w, [], Move(d, SHIPMENT_TO_LOADING, true, OPEN));
    DriverMoves(w, Run(w, e1), SHIPMENT_TO_LOADING, SHIPMENT_AT_LOADING, |e1|);
    RunExtends(w, e1, Move(d, SHIPMENT_AT_LOADING, true, OPEN));
    var e2 := e1 + [Move(d, SHIPMENT_AT_LOADING, true, OPEN)];
    DriverMoves(w, Run(w, e2), SHIPMENT_AT_LOADING, SHIPMENT_LOADING, |e2|);
    RunExtends(w, e2, Move(d, SHIPMENT_LOADING, true, OPEN));
    events := e2 + [Move(d, SHIPMENT_LOADING, true, OPEN)];
  }

  /** With the shipment at `loading` and its cargo checked there, the first loading point is closed
      through the shipment: its row need not have been visited, nor any row before it. */
  lemma FirstLoadClosesUnvisited(w: World, v: World) returns (i: nat)
    requires Fresh(w) && w.shipment.driver.Some? && Untouched(w, v, SHIPMENT_LOADING)
    requires v.shipment.loadingCheckedAt.Some?
    ensures i < |w.stops| && w.stops[i].kind == Load
    ensures var r := SubmitPod(v, Driver(w), Load, None, true, 0);
            && r.world == v.(pods := map[0 := Pod(Load, Some(w.stops[i].id), PodSubmitted)])
  {
    i := FirstOpen(w.stops, Load);
    OpenAreFirst(w.stops, Load, 0);
    var at := StopByID(v, Some(w.stops[i].id));
    if at >= 0 { DistinctRows(w, at, i); }
    assert !StopDriven(v, at);
    assert WithSubmission(v.pods, 0, Load, Some(w.stops[i].id))
           == map[0 := Pod(Load, Some(w.stops[i].id), PodSubmitted)];
  }

  lemma OpenAreFirst(stops: seq<Stop>, kind: Kind, i: nat)
    requires i <= |stops| && forall k :: 0 <= k < |stops| ==> stops[k].finishedAt.None?
    ensures FirstOpen(stops, kind, i) == FirstOfKind(stops, kind, i)
    decreases |stops| - i
  {
  }

  lemma ApprovalVisits(w: World, v: World, i: nat, now: Time)
    requires Fresh(w) && i < |w.stops| && w.stops[i].kind == Load
    requires v.stops == w.stops && v.pods == map[0 := Pod(Load, Some(w.stops[i].id), PodSubmitted)]
    requires v.order.shipper == w.order.shipper && v.order.transporter == w.order.transporter
    ensures var r := ReviewPod(v, Planner(w), 0, true, true, now).world;
            && |r.stops| == |w.stops| && r.stops[i].Visited()
            && forall k :: 0 <= k < |w.stops| && k != i ==> r.stops[k] == w.stops[k]
  {
    var at := IndexOf(v.stops, w.stops[i].id);
    DistinctRows(w, at, i);
    var c := Approved(v, 0, now);
    assert c.stops[i].finishedAt.Some?;
    EndStageOnlyClimbs(c, v.order.status, Planner(w), Load, now);
  }

  /** The shipment loads, and the driver has checked the cargo. */
  lemma {:induction false} ReachesCheckedLoading(w: World) returns (events: seq<Event>)
    requires Fresh(w) && w.shipment.driver.Some?
    ensures CleanRun(w, events) && Untouched(w, Run(w, events), SHIPMENT_LOADING)
    ensures Run(w, events).shipment.loadingCheckedAt.Some?
  {
    var before := ReachesLoading(w);
    var check := Check(Driver(w), Load);
    RunExtends(w, before, check);
    events := before + [check];
  }

  lemma {:induction false} FilesFirstLoad(w: World) returns (events: seq<Event>, i: nat)
    requires Fresh(w) && w.shipment.driver.Some?
    ensures CleanRun(w, events) && i < |w.stops| && w.stops[i].kind == Load
    ensures var v := Run(w, events);
            && v.stops == w.stops && v.pods == map[0 := Pod(Load, Some(w.stops[i].id), PodSubmitted)]
            && v.order.shipper == w.order.shipper && v.order.transporter == w.order.transporter
  {
    var before := ReachesCheckedLoading(w);
    var submit := Submit(Driver(w), Load, None, true, 0);
    i := FirstLoadClosesUnvisited(w, Run(w, before));
    RunExtends(w, before, submit);
    events := before + [submit];
  }

  lemma {:induction false} StartsWithUnloadBreaksPrefix(w: World) returns (events: seq<Event>)
    requires Fresh(w) && w.shipment.driver.Some? && w.stops[0].kind == Unload
    ensures CleanRun(w, events) && !Prefix(Run(w, events).stops)
  {
    var before, i := FilesFirstLoad(w);
    var review := Review(Planner(w), 0, true, true);
    ApprovalVisits(w, Run(w, before), i, |before|);
    RunExtends(w, before, review);
    events := before + [review];
    assert i != 0 && !Run(w, events).stops[0].Visited();
  }

  /** The visited stops form a prefix of the visit order in every clean run exactly when the journey
      starts with a loading point. */
  lemma {:induction false} PrefixHoldsIff(w: World)
    requires Fresh(w) && w.shipment.driver.Some?
    ensures w.stops[0].kind == Load <==> forall events :: CleanRun(w, events) ==> Prefix(Run(w, events).stops)
  {
    if w.stops[0].kind == Load {
      forall events | CleanRun(w, events) ensures Prefix(Run(w, events).stops) { VisitedIsAPrefix(w, events); }
    } else {
      var events := StartsWithUnloadBreaksPrefix(w);
    }
  }

  // ---- What an approval moves ----------------------------------------------------------------

  lemma ApprovalOnlyMoves(v: World, a: Actor, pod: PodId, now: Time)
    requires pod in v.pods && v.pods[pod].status == PodSubmitted && MayDecide(v, a)
    ensures SameButMoved(Approved(v, pod, now), ReviewPod(v, a, pod, true, true, now).world)
  {
    EndStageOnlyClimbs(Approved(v, pod, now), v.order.status, a, v.pods[pod].stage, now);
  }

  /** A stage whose other stops are not all closed is not closed by this approval. */
  lemma ApprovalLeavesRest(v: World, a: Actor, pod: PodId, stage: Kind, now: Time)
    requires Safe(v) && InReview(v, pod, stage) && MayDecide(v, a)
    ensures AllFinished(ReviewPod(v, a, pod, true, true, now).world, stage) ==> LastOfItsStage(v, pod)
  {
    if !LastOfItsStage(v, pod) {
      var c := Approved(v, pod, now);
      ApprovalClosesOneStage(v, pod, now);
      ApprovalClosesRow(v, pod, now);
      var i :| 0 <= i < |v.stops| && v.stops[i].kind == stage && Some(v.stops[i].id) != v.pods[pod].stopId
          && v.stops[i].finishedAt.None?;
      assert c.stops[i] == v.stops[i];
    }
  }

  // ---- A journey of two ends -----------------------------------------------------------------

  /** With two points the shipment, not the rows, is the gate for an unloading POD. */
  ghost predicate UnloadsInTurn(w: World) {
    |w.stops| <= 2 && forall p :: InReview(w, p, Unload) ==> w.shipment.status >= SHIPMENT_UNLOADING
  }

  lemma SubmittedInTurn(w: World, a: Actor, stage: Kind, named: Option<StopId>, photos: bool, pod: PodId)
    requires UnloadsInTurn(w)
    ensures UnloadsInTurn(SubmitPod(w, a, stage, named, photos, pod).world)
  {
    var v := SubmitPod(w, a, stage, named, photos, pod).world;
    forall p | InReview(v, p, Unload) ensures w.shipment.status >= SHIPMENT_UNLOADING {
      if p != pod || stage == Load || v == w { assert InReview(w, p, Unload); }
    }
  }

  lemma CallKeepsTurn(w: World, e: Event, now: Time)
    requires UnloadsInTurn(w)
    ensures UnloadsInTurn(Apply(w, e, now).world)
  {
    var v := Apply(w, e, now).world;
    NoCallGoesBack(w, e, now);
    if e.Submit? {
      SubmittedInTurn(w, e.actor, e.stage, e.named, e.photos, e.pod);
    } else if e.Review? {
      ReviewOpensNothing(w, e.actor, e.pod, e.approve, e.reason, now);
    } else {
      OthersKeepPods(w, e, now);
      forall p | InReview(v, p, Unload) ensures InReview(w, p, Unload) {}
    }
  }

  lemma ReviewOpensNothing(w: World, a: Actor, pod: PodId, approve: bool, reason: bool, now: Time)
    ensures forall p, st :: InReview(ReviewPod(w, a, pod, approve, reason, now).world, p, st) ==> InReview(w, p, st)
  {
    var v := ReviewPod(w, a, pod, approve, reason, now).world;
    if approve && pod in w.pods && w.pods[pod].status == PodSubmitted && MayDecide(w, a) {
      EndStageOnlyClimbs(Approved(w, pod, now), w.order.status, a, w.pods[pod].stage, now);
      assert v.pods == w.pods[pod := w.pods[pod].(status := PodApproved)];
    }
    forall p, st | InReview(v, p, st) ensures InReview(w, p, st) {}
  }

  lemma {:induction false} TwoEndsKeepLoaded(w: World, events: seq<Event>)
    requires Fresh(w) && |w.stops| <= 2 && CleanRun(w, events)
    ensures LoadedMeansLoadingDone(Run(w, events)) && UnloadsInTurn(Run(w, events))
    decreases |events|
  {
    if events == [] {
      forall p ensures !InReview(w, p, Unload) {}
    } else {
      var before, e := events[..|events| - 1], events[|events| - 1];
      assert events == before + [e];
      RunExtends(w, before, e);
      TwoEndsKeepLoaded(w, before);
      FreshIsSafe(w);
      CleanRunsAreSafe(w, before);
      TwoEndsStep(Run(w, before), e, |before|);
    }
  }

  lemma TwoEndsStep(w: World, e: Event, now: Time)
    requires Safe(w) && CleanEvent(w, e) && LoadedMeansLoadingDone(w) && UnloadsInTurn(w)
    ensures var v := Apply(w, e, now).world; LoadedMeansLoadingDone(v) && UnloadsInTurn(v)
  {
    CallKeepsTurn(w, e, now);
    LoadedMeansLoadingDoneBreaksIff(w, e, now);
  }
}
