/** Which deliveries can still be finished: the two ways of being stranded, and a clean continuation
    that finishes every delivery that is not. */
module JourneyCompletion {
  import opened Status
  import opened Stops
  import opened Journey
  import opened Walking
  import opened JourneySafety
  import opened JourneyResults
  import opened JourneyLimits
  import opened JourneyRuns

  // ---- What is beyond saving -----------------------------------------------------------------

  /** Something of this stage is still to be closed. */
  ghost predicate Pending(w: World, stage: Kind) { !AllFinished(w, stage) || !NoneInReview(w, stage) }

  /** Not signed off at the end, and never to be: cancelled, unloading closed too early, or loading
      closed before the shipment read `loading`, when nothing is left to sign it off. */
  ghost predicate Doomed(w: World) {
    && !AtOrPast(w.shipment.status, SHIPMENT_UNLOADED)
    && (|| w.shipment.status == SHIPMENT_CANCELLED
        || !Pending(w, Unload)
        || (!Pending(w, Load) && !AtOrPast(w.shipment.status, SHIPMENT_LOADED)))
  }

  lemma {:induction false} ApprovalKeepsDoomed(w: World, a: Actor, pod: PodId, reason: bool, now: Time)
    requires Safe(w) && Doomed(w)
    ensures Doomed(ReviewPod(w, a, pod, true, reason, now).world)
  {
    if pod in w.pods && w.pods[pod].status == PodSubmitted && MayDecide(w, a) {
      assert InReview(w, pod, w.pods[pod].stage);
      ApprovalOutcome(w, a, pod, reason, now);
    }
  }

  lemma CallKeepsDoomed(w: World, e: Event, now: Time)
    requires Safe(w) && CleanEvent(w, e) && Doomed(w)
    ensures Doomed(Apply(w, e, now).world)
  {
    var v := Apply(w, e, now).world;
    if Approves(e) {
      ApprovalKeepsDoomed(w, e.actor, e.pod, e.reason, now);
    } else {
      OnlyApprovalsFinish(w, e, now);
      SameFinishSameKinds(w, v);
      NoCallGoesBack(w, e, now);
      if !Pending(w, Unload) { NoNewReview(w, e, Unload, now); }
      if !Pending(w, Load) { NoNewReview(w, e, Load, now); }
    }
  }

  lemma {:induction false} DoomedForever(w: World, events: seq<Event>)
    requires Safe(w) && CleanRun(w, events) && Doomed(w)
    ensures Doomed(Run(w, events))
    decreases |events|
  {
    if events != [] {
      var before, e := events[..|events| - 1], events[|events| - 1];
      assert events == before + [e];
      RunExtends(w, before, e);
      DoomedForever(w, before);
      CleanRunsAreSafe(w, before);
      CallKeepsDoomed(Run(w, before), e, |before|);
    }
  }

  // ---- A continuation, call by call ----------------------------------------------------------

  ghost predicate Reached(w: World, events: seq<Event>, u: World) {
    CleanRun(w, events) && Run(w, events) == u && Safe(u)
  }

  lemma Go(w: World, before: seq<Event>, u: World, e: Event) returns (events: seq<Event>, v: World)
    requires Reached(w, before, u) && CleanEvent(u, e)
    ensures v == Apply(u, e, |before|).world && Reached(w, events, v)
  {
    RunExtends(w, before, e);
    events, v := before + [e], Apply(u, e, |before|).world;
    CleanCallKeepsSafe(u, e, |before|);
  }

  ghost predicate AllVisited(u: World) { forall i :: 0 <= i < |u.stops| ==> u.stops[i].Visited() }

  /** The stage's PODs can be filed: the shipment works the stage, or, with more than two points, the
      rows are the gate and the shipment, still loading, lets unloading rows start. */
  predicate GateOpen(u: World, stage: Kind) {
    u.shipment.status == StatusForStop(stage)
    || (stage == Unload && |u.stops| > 2 && u.shipment.status == SHIPMENT_LOADING)
  }

  /** The driver has been everywhere and works a stage. */
  ghost predicate OnSite(u: World, stage: Kind) {
    u.shipment.driver.Some? && AllVisited(u) && GateOpen(u, stage)
  }

  /** Row i may have been started and checked, and the cargo checked; nothing else differs. */
  ghost predicate Prepared(u: World, v: World, i: int) {
    && 0 <= i < |u.stops| == |v.stops|
    && v.pods == u.pods && v.order == u.order && v.webField == u.webField
    && v.shipment.status == u.shipment.status && v.shipment.driver == u.shipment.driver
    && (forall k :: 0 <= k < |u.stops| && k != i ==> v.stops[k] == u.stops[k])
    && v.stops[i] == u.stops[i].(startedAt := v.stops[i].startedAt, cargoCheckedAt := v.stops[i].cargoCheckedAt)
  }

  lemma RowIsFound(u: World, i: nat)
    requires DistinctIds(u.stops) && i < |u.stops|
    ensures IndexOf(u.stops, u.stops[i].id) == i
  {
    DistinctRows(u, IndexOf(u.stops, u.stops[i].id), i);
  }

  lemma DriverStartsRow(u: World, i: nat, now: Time)
    requires Safe(u) && i < |u.stops| && OnSite(u, u.stops[i].kind)
    requires u.stops[i].finishedAt.None? && u.stops[i].startedAt.None?
    ensures var v := Apply(u, Start(Driver(u), u.stops[i].id, true, OPEN), now).world;
            v == WithStop(u, i, u.stops[i].(startedAt := Some(now)))
  {
    RowIsFound(u, i);
    assert u.stops[i].Visited();
    DriverStays(WithStop(u, i, u.stops[i].(startedAt := Some(now))), u.stops[i].kind, now);
  }

  /** No step is left to the driver on the way to the stage's working status. */
  lemma DriverStays(u: World, stage: Kind, now: Time)
    requires u.shipment.driver.Some? && GateOpen(u, stage)
    ensures Walk(u, u.order.status, Driver(u), StatusForStop(stage), RoleDriver, OPEN, now).world == u
  {
    if u.shipment.status == StatusForStop(stage) {
      assert NextTowards(u.shipment.status, StatusForStop(stage)) == None;
    } else {
      assert NextTowards(u.shipment.status, StatusForStop(stage)) == Some(SHIPMENT_LOADED);
    }
  }

  lemma DriverChecksRow(u: World, i: nat, now: Time)
    requires Safe(u) && u.shipment.driver.Some? && i < |u.stops| && u.stops[i].startedAt.Some?
    ensures var v := Apply(u, CheckStop(Driver(u), u.stops[i].id, true), now).world;
            v == WithStop(u, i, u.stops[i].(cargoCheckedAt := Some(now)))
  {
    RowIsFound(u, i);
  }

  function Checker(u: World, stage: Kind): Actor
    requires u.shipment.driver.Some?
  {
    if stage == Load then Driver(u) else Planner(u)
  }

  function CheckedAt(u: World, stage: Kind): Option<Time> {
    if stage == Load then u.shipment.loadingCheckedAt else u.shipment.unloadingCheckedAt
  }

  lemma CargoIsChecked(u: World, stage: Kind, now: Time)
    requires u.shipment.driver.Some? && u.shipment.status == StatusForStop(stage)
    ensures var v := Apply(u, Check(Checker(u, stage), stage), now).world;
            CheckedAt(v, stage).Some? && v.stops == u.stops && v.pods == u.pods && v.order == u.order
            && v.webField == u.webField && v.shipment.status == u.shipment.status
            && v.shipment.driver == u.shipment.driver
  {
  }

  lemma PreparedJoins(u: World, x: World, v: World, i: int)
    requires Prepared(u, x, i) && Prepared(x, v, i)
    ensures Prepared(u, v, i)
  {
  }

  lemma StartsRow(w: World, before: seq<Event>, u: World, i: nat) returns (events: seq<Event>, v: World)
    requires Reached(w, before, u) && i < |u.stops| && OnSite(u, u.stops[i].kind) && u.stops[i].finishedAt.None?
    ensures Reached(w, events, v) && Prepared(u, v, i) && v.stops[i].startedAt.Some?
  {
    events, v := before, u;
    if u.stops[i].startedAt.None? {
      DriverStartsRow(u, i, |before|);
      events, v := Go(w, before, u, Start(Driver(u), u.stops[i].id, true, OPEN));
    }
  }

  lemma ChecksRow(w: World, before: seq<Event>, u: World, i: nat) returns (events: seq<Event>, v: World)
    requires Reached(w, before, u) && u.shipment.driver.Some? && i < |u.stops| && u.stops[i].startedAt.Some?
    ensures Reached(w, events, v) && Prepared(u, v, i) && v.stops[i].cargoCheckedAt.Some?
    ensures v.stops[i].startedAt == u.stops[i].startedAt
  {
    DriverChecksRow(u, i, |before|);
    events, v := Go(w, before, u, CheckStop(Driver(u), u.stops[i].id, true));
  }

  lemma {:induction false} ChecksCargo(w: World, before: seq<Event>, u: World, i: nat, stage: Kind)
      returns (events: seq<Event>, v: World)
    requires Reached(w, before, u) && i < |u.stops| && OnSite(u, stage)
    ensures Reached(w, events, v) && Prepared(u, v, i) && v.stops == u.stops && CargoSettled(v, stage)
  {
    events, v := before, u;
    if u.shipment.status == StatusForStop(stage) {
      CargoIsChecked(u, stage, |before|);
      events, v := Go(w, before, u, Check(Checker(u, stage), stage));
    }
  }

  /** Where the shipment is the gate, its cargo has been checked. */
  predicate CargoSettled(u: World, stage: Kind) {
    u.shipment.status == StatusForStop(stage) ==> CheckedAt(u, stage).Some?
  }

  lemma PreparedIsOnSite(u: World, v: World, i: int, stage: Kind)
    requires Prepared(u, v, i) && OnSite(u, stage)
    ensures OnSite(v, stage)
  {
    forall k | 0 <= k < |v.stops| ensures v.stops[k].Visited() { assert u.stops[k].Visited(); }
  }

  /** An open row of the stage made ready for its POD. */
  lemma PreparesRow(w: World, before: seq<Event>, u: World, i: nat) returns (events: seq<Event>, v: World)
    requires Reached(w, before, u) && i < |u.stops| && OnSite(u, u.stops[i].kind) && u.stops[i].finishedAt.None?
    ensures Reached(w, events, v) && Prepared(u, v, i) && OnSite(v, u.stops[i].kind)
    ensures v.stops[i].startedAt.Some? && v.stops[i].cargoCheckedAt.Some? && CargoSettled(v, u.stops[i].kind)
  {
    var a, x := StartsRow(w, before, u, i);
    var b, y := ChecksRow(w, a, x, i);
    PreparedJoins(u, x, y, i);
    PreparedIsOnSite(u, y, i, u.stops[i].kind);
    events, v := ChecksCargo(w, b, y, i, u.stops[i].kind);
    PreparedJoins(u, y, v, i);
    PreparedIsOnSite(y, v, i, u.stops[i].kind);
  }

  /** A number above all of these. */
  ghost function Above(ids: set<PodId>): (top: PodId)
    ensures forall q :: q in ids ==> q < top
  {
    if ids == {} then 0
    else
      var q :| q in ids;
      var rest := Above(ids - {q});
      assert forall r :: r in ids ==> r == q || r in ids - {q};
      if q < rest then rest else q + 1
  }

  lemma DriverFiles(u: World, i: nat, p: PodId, now: Time)
    requires Safe(u) && i < |u.stops| && OnSite(u, u.stops[i].kind) && u.stops[i].finishedAt.None?
    requires u.stops[i].startedAt.Some? && u.stops[i].cargoCheckedAt.Some? && CargoSettled(u, u.stops[i].kind)
    requires p !in u.pods
    ensures var stage := u.stops[i].kind;
            Apply(u, Submit(Driver(u), stage, Some(u.stops[i].id), true, p), now).world
            == u.(pods := WithSubmission(u.pods, p, stage, Some(u.stops[i].id)))
  {
    var stage, stop := u.stops[i].kind, Some(u.stops[i].id);
    RowIsFound(u, i);
    assert SubmitRefusal(u, stage, stop).None?;
    forall q | q in u.pods ensures !IsApprovedFor(u.pods[q], stage, stop) {
      assert u.pods[q].stopId == stop ==> Names(u, q, i);
    }
  }

  // ---- A stage, row by row -------------------------------------------------------------------

  /** What serving a stage never does: undo a finish, or close anything of the other stage. */
  ghost predicate Onwards(u: World, v: World, stage: Kind) {
    && SamePoints(u, v) && v.shipment.driver == u.shipment.driver
    && (forall i :: 0 <= i < |u.stops| && u.stops[i].finishedAt.Some? ==> v.stops[i].finishedAt.Some?)
    && (AllVisited(u) ==> AllVisited(v))
    && (forall other :: other != stage ==>
          (AllFinished(v, other) ==> AllFinished(u, other)) && (NoneInReview(v, other) ==> NoneInReview(u, other)))
  }

  lemma OnwardsJoins(u: World, x: World, v: World, stage: Kind)
    requires Onwards(u, x, stage) && Onwards(x, v, stage)
    ensures Onwards(u, v, stage)
  {
  }

  lemma PreparedIsOnwards(u: World, v: World, i: int, stage: Kind)
    requires Prepared(u, v, i)
    ensures Onwards(u, v, stage)
  {
    assert SameFinish(u, v);
    SameFinishSameKinds(u, v);
    forall k | 0 <= k < |u.stops| ensures u.stops[k].Visited() ==> v.stops[k].Visited() {}
    forall p, st ensures InReview(v, p, st) <==> InReview(u, p, st) {}
  }

  lemma FilingIsOnwards(u: World, p: PodId, stage: Kind, stop: Option<StopId>)
    requires p !in u.pods
    ensures Onwards(u, u.(pods := WithSubmission(u.pods, p, stage, stop)), stage)
  {
    var v := u.(pods := WithSubmission(u.pods, p, stage, stop));
    assert SameFinish(u, v);
    SameFinishSameKinds(u, v);
    forall q, st | st != stage ensures InReview(v, q, st) <==> InReview(u, q, st) {}
  }

  lemma {:induction false} ApprovalIsOnwards(u: World, p: PodId, now: Time)
    requires Safe(u) && p in u.pods && u.pods[p].status == PodSubmitted
    ensures var v := ReviewPod(u, Planner(u), p, true, true, now).world;
            && Onwards(u, v, u.pods[p].stage)
            && forall i :: Names(u, p, i) ==> v.stops[i].finishedAt.Some?
  {
    var v, stage := ReviewPod(u, Planner(u), p, true, true, now).world, u.pods[p].stage;
    ApprovalClosesRow(u, p, now);
    ApprovalOnlyMoves(u, Planner(u), p, now);
    ApprovalOutcome(u, Planner(u), p, true, now);
    forall i | Names(u, p, i) ensures i == IndexOf(u.stops, u.pods[p].stopId.value) {
      RowIsFound(u, i);
    }
    forall q, st | st != stage ensures InReview(v, q, st) <==> InReview(u, q, st) {}
  }

  lemma FilesRow(w: World, before: seq<Event>, u: World, i: nat) returns (events: seq<Event>, v: World, p: PodId)
    requires Reached(w, before, u) && i < |u.stops| && OnSite(u, u.stops[i].kind) && u.stops[i].finishedAt.None?
    requires u.stops[i].startedAt.Some? && u.stops[i].cargoCheckedAt.Some? && CargoSettled(u, u.stops[i].kind)
    ensures Reached(w, events, v) && OnSite(v, u.stops[i].kind) && Onwards(u, v, u.stops[i].kind)
    ensures InReview(v, p, u.stops[i].kind) && Names(v, p, i) && v.shipment == u.shipment
  {
    var stage, stop := u.stops[i].kind, Some(u.stops[i].id);
    p := Above(u.pods.Keys);
    DriverFiles(u, i, p, |before|);
    FilingIsOnwards(u, p, stage, stop);
    events, v := Go(w, before, u, Submit(Driver(u), stage, stop, true, p));
  }

  ghost predicate StageClosed(u: World, v: World, stage: Kind) {
    v.shipment.status == SignedOff(stage, u.shipment.status) && !Pending(v, stage)
  }

  ghost predicate GoesOn(u: World, v: World, stage: Kind) {
    OnSite(v, stage) && Pending(v, stage) && v.shipment.status == u.shipment.status
  }

  /** The planner approves: the stage ends if nothing else of it is open, and goes on if not. */
  ghost predicate DecidedOn(u: World, p: PodId, stage: Kind, v: World) {
    && p in u.pods && Onwards(u, v, stage)
    && (forall i :: Names(u, p, i) ==> v.stops[i].finishedAt.Some?)
    && (if LastOfItsStage(u, p) then StageClosed(u, v, stage) else GoesOn(u, v, stage))
  }

  lemma PlannerDecides(u: World, p: PodId, stage: Kind, now: Time)
    requires Safe(u) && OnSite(u, stage) && InReview(u, p, stage)
    ensures DecidedOn(u, p, stage, ReviewPod(u, Planner(u), p, true, true, now).world)
  {
    ApprovalOutcome(u, Planner(u), p, true, now);
    ApprovalIsOnwards(u, p, now);
    ApprovalLeavesRest(u, Planner(u), p, stage, now);
  }

  lemma {:induction false} DecidesPod(w: World, before: seq<Event>, u: World, p: PodId, stage: Kind)
      returns (events: seq<Event>, v: World)
    requires Reached(w, before, u) && OnSite(u, stage) && InReview(u, p, stage)
    ensures Reached(w, events, v) && DecidedOn(u, p, stage, v)
  {
    PlannerDecides(u, p, stage, |before|);
    events, v := Go(w, before, u, Review(Planner(u), p, true, true));
  }

  /** An open row of the stage started, checked and filed. */
  lemma {:induction false} FilesOpenRow(w: World, before: seq<Event>, u: World, i: nat)
      returns (events: seq<Event>, v: World, p: PodId)
    requires Reached(w, before, u) && i < |u.stops| && OnSite(u, u.stops[i].kind) && u.stops[i].finishedAt.None?
    ensures Reached(w, events, v) && OnSite(v, u.stops[i].kind) && Onwards(u, v, u.stops[i].kind)
    ensures InReview(v, p, u.stops[i].kind) && Names(v, p, i) && v.shipment.status == u.shipment.status
  {
    var a, x := PreparesRow(w, before, u, i);
    PreparedIsOnwards(u, x, i, u.stops[i].kind);
    events, v, p := FilesRow(w, a, x, i);
    OnwardsJoins(u, x, v, u.stops[i].kind);
  }

  /** And approved. */
  lemma {:induction false} ServesRow(w: World, before: seq<Event>, u: World, i: nat)
      returns (events: seq<Event>, v: World)
    requires Reached(w, before, u) && i < |u.stops| && OnSite(u, u.stops[i].kind) && u.stops[i].finishedAt.None?
    ensures var stage := u.stops[i].kind;
            && Reached(w, events, v) && Onwards(u, v, stage) && v.stops[i].finishedAt.Some?
            && (StageClosed(u, v, stage) || GoesOn(u, v, stage))
  {
    var a, x, p := FilesOpenRow(w, before, u, i);
    events, v := DecidesPod(w, a, x, p, u.stops[i].kind);
    OnwardsJoins(u, x, v, u.stops[i].kind);
  }

  /** All rows are closed and a POD is still in review: its approval ends the stage. */
  lemma {:induction false} ClosesLast(w: World, before: seq<Event>, u: World, stage: Kind)
      returns (events: seq<Event>, v: World)
    requires Reached(w, before, u) && OnSite(u, stage) && Pending(u, stage) && AllFinished(u, stage)
    ensures Reached(w, events, v) && Onwards(u, v, stage) && StageClosed(u, v, stage)
  {
    var p :| InReview(u, p, stage);
    events, v := DecidesPod(w, before, u, p, stage);
  }

  ghost predicate ClosedBefore(u: World, stage: Kind, k: nat) {
    k <= |u.stops| && forall i :: 0 <= i < k && u.stops[i].kind == stage ==> u.stops[i].finishedAt.Some?
  }

  lemma ClosedOneMore(u: World, v: World, stage: Kind, k: nat)
    requires ClosedBefore(u, stage, k) && k < |u.stops| && Onwards(u, v, stage)
    requires u.stops[k].kind == stage ==> v.stops[k].finishedAt.Some?
    ensures ClosedBefore(v, stage, k + 1)
  {
  }

  lemma StayingIsOnwards(u: World, stage: Kind)
    ensures Onwards(u, u, stage)
  {
  }

  lemma {:induction false} NextRow(w: World, before: seq<Event>, u: World, stage: Kind, k: nat)
      returns (events: seq<Event>, v: World)
    requires Reached(w, before, u) && OnSite(u, stage) && Pending(u, stage) && k < |u.stops|
    requires ClosedBefore(u, stage, k)
    ensures Reached(w, events, v) && Onwards(u, v, stage)
    ensures StageClosed(u, v, stage) || (GoesOn(u, v, stage) && ClosedBefore(v, stage, k + 1))
  {
    events, v := before, u;
    if u.stops[k].kind == stage && u.stops[k].finishedAt.None? {
      events, v := ServesRow(w, before, u, k);
    } else {
      StayingIsOnwards(u, stage);
    }
    ClosedOneMore(u, v, stage, k);
  }

  lemma {:induction false} FinishesStage(w: World, before: seq<Event>, u: World, stage: Kind, k: nat)
      returns (events: seq<Event>, v: World)
    requires Reached(w, before, u) && OnSite(u, stage) && Pending(u, stage) && ClosedBefore(u, stage, k)
    ensures Reached(w, events, v) && Onwards(u, v, stage) && StageClosed(u, v, stage)
    decreases |u.stops| - k
  {
    if k == |u.stops| {
      events, v := ClosesLast(w, before, u, stage);
    } else {
      var a, x := NextRow(w, before, u, stage, k);
      if StageClosed(u, x, stage) {
        events, v := a, x;
      } else {
        events, v := FinishesStage(w, a, x, stage, k + 1);
        OnwardsJoins(u, x, v, stage);
      }
    }
  }

  // ---- Getting there -------------------------------------------------------------------------

  /** Nothing is closed and nothing filed. */
  ghost predicate Calm(u: World, v: World) {
    && SamePoints(u, v) && SameFinish(u, v) && v.pods == u.pods && v.shipment.driver == u.shipment.driver
    && (AllVisited(u) ==> AllVisited(v))
  }

  lemma CalmKeepsPending(u: World, v: World)
    requires Calm(u, v)
    ensures forall stage :: Pending(v, stage) <==> Pending(u, stage)
  {
    SameFinishSameKinds(u, v);
    forall p, st ensures InReview(v, p, st) <==> InReview(u, p, st) {}
  }

  lemma DriverArrives(u: World, k: nat, now: Time)
    requires Safe(u) && u.shipment.driver.Some? && k < |u.stops| && !u.stops[k].Visited() && IsNext(u.stops, k)
    ensures var v := Apply(u, Arrive(Driver(u), u.stops[k].id, OPEN), now).world;
            v == WithStop(u, k, u.stops[k].(arrivedAt := Some(now)))
  {
    RowIsFound(u, k);
  }

  lemma ArrivalIsCalm(u: World, k: nat, now: Time)
    requires k < |u.stops| && forall i :: 0 <= i < k ==> u.stops[i].Visited()
    ensures var v := WithStop(u, k, u.stops[k].(arrivedAt := Some(now)));
            Calm(u, v) && v.shipment == u.shipment && forall i :: 0 <= i <= k ==> v.stops[i].Visited()
  {
  }

  lemma CalmJoins(u: World, x: World, v: World)
    requires Calm(u, x) && Calm(x, v)
    ensures Calm(u, v)
  {
  }

  lemma ArrivesAtRow(w: World, before: seq<Event>, u: World, k: nat) returns (events: seq<Event>, v: World)
    requires Reached(w, before, u) && u.shipment.driver.Some? && k < |u.stops|
    requires forall i :: 0 <= i < k ==> u.stops[i].Visited()
    ensures Reached(w, events, v) && Calm(u, v) && v.shipment == u.shipment
    ensures forall i :: 0 <= i <= k ==> v.stops[i].Visited()
  {
    events, v := before, u;
    if !u.stops[k].Visited() {
      DriverArrives(u, k, |before|);
      ArrivalIsCalm(u, k, |before|);
      events, v := Go(w, before, u, Arrive(Driver(u), u.stops[k].id, OPEN));
    }
  }

  lemma {:induction false} GoesRound(w: World, before: seq<Event>, u: World, k: nat)
      returns (events: seq<Event>, v: World)
    requires Reached(w, before, u) && u.shipment.driver.Some? && k <= |u.stops|
    requires forall i :: 0 <= i < k ==> u.stops[i].Visited()
    ensures Reached(w, events, v) && Calm(u, v) && AllVisited(v) && v.shipment.status == u.shipment.status
    decreases |u.stops| - k
  {
    if k == |u.stops| {
      events, v := before, u;
    } else {
      var a, x := ArrivesAtRow(w, before, u, k);
      events, v := GoesRound(w, a, x, k + 1);
      CalmJoins(u, x, v);
    }
  }

  lemma MovingIsCalm(u: World, v: World)
    requires SameButMoved(u, v)
    ensures Calm(u, v)
  {
  }

  lemma DriverPasses(u: World, to: ShipmentStatus)
    requires u.shipment.driver.Some? && !ShipmentIsFinal(u.shipment.status) && u.shipment.status != SHIPMENT_UNKNOWN
    requires ShipmentEdge(u.shipment.status, to) == Only(DriverAlone)
             || ShipmentEdge(u.shipment.status, to) == Only(DriverOrSystem)
    ensures MachineRole(Driver(u), u.order) == RoleDriver
    ensures Permits(Driver(u), u.shipment.status, to, RoleDriver, OPEN)
  {
  }

  lemma DriverSteps(u: World, to: ShipmentStatus, now: Time)
    requires Safe(u) && u.shipment.driver.Some?
    requires ShipmentEdge(u.shipment.status, to) == Only(DriverAlone)
             || ShipmentEdge(u.shipment.status, to) == Only(DriverOrSystem)
    ensures var v := Advance(u, Driver(u), to, true, OPEN, now).world;
            v.shipment.status == to && Calm(u, v)
  {
    DriverPasses(u, to);
    StepStandsWhereItStepped(u, u.order.status, Driver(u), to, RoleDriver, OPEN, now);
    MovingIsCalm(u, Advance(u, Driver(u), to, true, OPEN, now).world);
  }

  function NextForDriver(s: ShipmentStatus): ShipmentStatus {
    if s == SHIPMENT_ASSIGNED then SHIPMENT_TO_LOADING
    else if s == SHIPMENT_TO_LOADING then SHIPMENT_AT_LOADING
    else if s == SHIPMENT_AT_LOADING then SHIPMENT_LOADING
    else if s == SHIPMENT_LOADED then SHIPMENT_TO_UNLOADING
    else if s == SHIPMENT_TO_UNLOADING then SHIPMENT_AT_UNLOADING
    else SHIPMENT_UNLOADING
  }

  lemma DrivesOn(w: World, before: seq<Event>, u: World) returns (events: seq<Event>, v: World)
    requires Reached(w, before, u) && u.shipment.driver.Some?
    requires u.shipment.status < SHIPMENT_UNLOADING && u.shipment.status != SHIPMENT_LOADING
    ensures Reached(w, events, v) && Calm(u, v) && v.shipment.status == NextForDriver(u.shipment.status)
  {
    var to := NextForDriver(u.shipment.status);
    DriverSteps(u, to, |before|);
    events, v := Go(w, before, u, Move(Driver(u), to, true, OPEN));
  }

  /** The driver takes the shipment on to the stage's working status. */
  lemma {:induction false} DrivesTo(w: World, before: seq<Event>, u: World, stage: Kind)
      returns (events: seq<Event>, v: World)
    requires Reached(w, before, u) && u.shipment.driver.Some? && u.shipment.status <= StatusForStop(stage)
    requires stage == Unload ==> u.shipment.status >= SHIPMENT_LOADED
    ensures Reached(w, events, v) && Calm(u, v) && v.shipment.status == StatusForStop(stage)
    decreases StatusForStop(stage) - u.shipment.status
  {
    if u.shipment.status == StatusForStop(stage) {
      events, v := before, u;
    } else {
      var a, x := DrivesOn(w, before, u);
      events, v := DrivesTo(w, a, x, stage);
      CalmJoins(u, x, v);
    }
  }

  function Pic(w: World): Actor { Actor(0, w.order.shipper, RoleWarehousePic, false) }

  lemma PicSteps(w: World, now: Time)
    requires w.shipment.status == SHIPMENT_UNLOADED
    ensures Advance(w, Pic(w), SHIPMENT_FINISHED, true, OPEN, now).world.shipment.status == SHIPMENT_FINISHED
  {
    StepStandsWhereItStepped(w, w.order.status, Pic(w), SHIPMENT_FINISHED, RoleWarehousePic, OPEN, now);
  }

  /** An unloaded shipment is finished by a warehouse PIC. */
  lemma {:induction false} PicFinishes(w: World) returns (events: seq<Event>)
    requires Safe(w) && w.shipment.status == SHIPMENT_UNLOADED
    ensures CleanRun(w, events) && Run(w, events).shipment.status == SHIPMENT_FINISHED
  {
    PicSteps(w, 0);
    var v;
    events, v := Go(w, [], w, Move(Pic(w), SHIPMENT_FINISHED, true, OPEN));
  }

  lemma FinishesLoading(w: World, before: seq<Event>, u: World) returns (events: seq<Event>, v: World)
    requires Reached(w, before, u) && u.shipment.driver.Some? && AllVisited(u)
    requires u.shipment.status <= SHIPMENT_LOADING && Pending(u, Load) && Pending(u, Unload)
    ensures Reached(w, events, v) && v.shipment.driver.Some? && AllVisited(v)
    ensures v.shipment.status == SHIPMENT_TO_UNLOADING && Pending(v, Unload)
  {
    var a, x := DrivesTo(w, before, u, Load);
    CalmKeepsPending(u, x);
    events, v := FinishesStage(w, a, x, Load, 0);
  }

  lemma {:induction false} FinishesUnloading(w: World, before: seq<Event>, u: World)
      returns (events: seq<Event>, v: World)
    requires Reached(w, before, u) && u.shipment.driver.Some? && AllVisited(u)
    requires SHIPMENT_LOADED <= u.shipment.status <= SHIPMENT_UNLOADING && Pending(u, Unload)
    ensures Reached(w, events, v) && v.shipment.status == SHIPMENT_FINISHED
  {
    var a, x := DrivesTo(w, before, u, Unload);
    CalmKeepsPending(u, x);
    events, v := FinishesStage(w, a, x, Unload, 0);
  }

  /** A delivery that is not doomed has a clean continuation that finishes it. */
  lemma {:induction false} CanBeFinished(w: World) returns (events: seq<Event>)
    requires Safe(w) && w.shipment.driver.Some? && !Doomed(w)
    ensures CleanRun(w, events) && Run(w, events).shipment.status == SHIPMENT_FINISHED
  {
    if w.shipment.status == SHIPMENT_FINISHED {
      events := [];
    } else if w.shipment.status == SHIPMENT_UNLOADED {
      events := PicFinishes(w);
    } else {
      var before, u := GoesRound(w, [], w, 0);
      CalmKeepsPending(w, u);
      if u.shipment.status <= SHIPMENT_LOADING { before, u := FinishesLoading(w, before, u); }
      var v;
      events, v := FinishesUnloading(w, before, u);
    }
  }

  /** From any state a clean run can reach, with a driver: some clean continuation finishes shipment and
      order exactly when the delivery is not doomed. */
  lemma {:induction false} CanBeFinishedIff(w: World)
    requires Safe(w) && w.shipment.driver.Some?
    ensures !Doomed(w) <==>
            exists events :: CleanRun(w, events) && Run(w, events).shipment.status == SHIPMENT_FINISHED
                             && Run(w, events).order.status == OrderCompleted
  {
    if !Doomed(w) {
      var events := CanBeFinished(w);
      CleanRunsAreSafe(w, events);
      assert Linked(Run(w, events));
    } else {
      forall events | CleanRun(w, events) ensures Run(w, events).shipment.status != SHIPMENT_FINISHED {
        DoomedForever(w, events);
      }
    }
  }

  // ---- How loading dooms a delivery ----------------------------------------------------------

  /** The approval of the last loading POD, with unloading still to come, dooms the delivery exactly
      when the shipment has not got as far as `loading`: the sign-off it means is refused, and no later
      call can give it. */
  lemma {:induction false} LastLoadingApprovalDoomsIff(u: World, a: Actor, pod: PodId, reason: bool, now: Time)
    requires Safe(u) && InReview(u, pod, Load) && LastOfItsStage(u, pod) && MayDecide(u, a) && Pending(u, Unload)
    requires OnChain(u.shipment.status)
    ensures Doomed(ReviewPod(u, a, pod, true, reason, now).world) <==> u.shipment.status < SHIPMENT_LOADING
  {
    var v := ReviewPod(u, a, pod, true, reason, now).world;
    ApprovalOutcome(u, a, pod, reason, now);
    UnloadStaysPending(u, a, pod, reason, now);
  }

  lemma UnloadStaysPending(u: World, a: Actor, pod: PodId, reason: bool, now: Time)
    requires Safe(u) && InReview(u, pod, Load) && MayDecide(u, a) && Pending(u, Unload)
    ensures Pending(ReviewPod(u, a, pod, true, reason, now).world, Unload)
  {
    var v := ReviewPod(u, a, pod, true, reason, now).world;
    ApprovalOutcome(u, a, pod, reason, now);
    EndStageOnlyClimbs(Approved(u, pod, now), u.order.status, a, Load, now);
    if q :| InReview(u, q, Unload) { assert InReview(v, q, Unload); }
  }

  /** The order's fence refuses the arrival that the walk would report; the stop's own does not. */
  const OFF_SITE := Fence(true, false, false, false, false)

  /** Three points, and a shipment and order as assigned. */
  function Trip(): World {
    World([NewStop(0, Load), NewStop(1, Unload), NewStop(2, Unload)], map[],
          Shipment(SHIPMENT_ASSIGNED, Some(9), map[], None, None), Order(OrderAssigned, 1, Some(2)), false)
  }

  function NewStop(id: StopId, kind: Kind): Stop {
    Stop(id, id + 1, kind, 1, "", None, None, None, None, None)
  }

  lemma TripIsFresh()
    ensures Fresh(Trip()) && Safe(Trip())
  {
    var w := Trip();
    assert w.stops[0].kind == Load && w.stops[1].kind == Unload;
    FreshIsSafe(w);
  }

  lemma StopsShort(u: World, now: Time)
    requires Linked(u) && u.shipment.driver.Some? && u.shipment.status == SHIPMENT_ASSIGNED
    ensures var v := Walk(u, u.order.status, Driver(u), SHIPMENT_LOADING, RoleDriver, OFF_SITE, now).world;
            v.shipment.status == SHIPMENT_TO_LOADING && SameButMoved(u, v)
  {
    assert NextTowards(SHIPMENT_ASSIGNED, SHIPMENT_LOADING) == Some(SHIPMENT_TO_LOADING);
    assert NextTowards(SHIPMENT_TO_LOADING, SHIPMENT_LOADING) == Some(SHIPMENT_AT_LOADING);
    assert !Permits(Driver(u), SHIPMENT_TO_LOADING, SHIPMENT_AT_LOADING, RoleDriver, OFF_SITE);
    assert Reach(Driver(u), SHIPMENT_TO_LOADING, SHIPMENT_LOADING, RoleDriver, OFF_SITE) == SHIPMENT_TO_LOADING;
    WalkGoesAsFarAsItMay(u, u.order.status, Driver(u), SHIPMENT_LOADING, RoleDriver, OFF_SITE, now);
  }

  ghost predicate AtFirstStop(u: World) {
    && u.pods == map[] && u.shipment.driver.Some? && |u.stops| == 3
    && u.stops[0].kind == Load && u.stops[1].kind == Unload && u.stops[2].kind == Unload
    && u.stops[0].arrivedAt.Some? && forall i :: 0 <= i < 3 ==> u.stops[i].finishedAt.None?
  }

  /** The first stop arrived at and started, the shipment left on its way there. */
  ghost predicate StartedOffSite(u: World) {
    AtFirstStop(u) && u.stops[0].startedAt.Some? && u.shipment.status == SHIPMENT_TO_LOADING
  }

  lemma ArrivesAtFirst() returns (events: seq<Event>, u: World)
    ensures Reached(Trip(), events, u)
    ensures AtFirstStop(u) && u.stops[0].startedAt.None? && u.shipment.status == SHIPMENT_ASSIGNED
  {
    var w := Trip();
    TripIsFresh();
    DriverArrives(w, 0, 0);
    events, u := Go(w, [], w, Arrive(Driver(w), w.stops[0].id, OPEN));
  }

  lemma {:induction false} DriverStartsOffSite(u: World, now: Time)
    requires Safe(u) && AtFirstStop(u) && u.stops[0].startedAt.None? && u.shipment.status == SHIPMENT_ASSIGNED
    ensures StartedOffSite(Apply(u, Start(Driver(u), u.stops[0].id, true, OFF_SITE), now).world)
  {
    RowIsFound(u, 0);
    StopsShort(WithStop(u, 0, u.stops[0].(startedAt := Some(now))), now);
  }

  lemma StartsOffSite() returns (events: seq<Event>, u: World)
    ensures Reached(Trip(), events, u) && StartedOffSite(u)
  {
    var a, x := ArrivesAtFirst();
    DriverStartsOffSite(x, |a|);
    events, u := Go(Trip(), a, x, Start(Driver(x), x.stops[0].id, true, OFF_SITE));
  }

  lemma FilesOffSite(u: World, now: Time)
    requires Safe(u) && StartedOffSite(u) && u.stops[0].cargoCheckedAt.Some?
    ensures Apply(u, Submit(Driver(u), Load, Some(u.stops[0].id), true, 0), now).world
            == u.(pods := map[0 := Pod(Load, Some(u.stops[0].id), PodSubmitted)])
  {
    RowIsFound(u, 0);
    assert SubmitRefusal(u, Load, Some(u.stops[0].id)).None?;
    assert WithSubmission(u.pods, 0, Load, Some(u.stops[0].id))
           == map[0 := Pod(Load, Some(u.stops[0].id), PodSubmitted)];
  }

  /** The last loading POD is in review, with the shipment still on its way to load. */
  ghost predicate FiledOffSite(u: World) {
    InReview(u, 0, Load) && LastOfItsStage(u, 0) && Pending(u, Unload) && u.shipment.status == SHIPMENT_TO_LOADING
  }

  lemma FiledIsLast(u: World)
    requires StartedOffSite(u)
    ensures FiledOffSite(u.(pods := map[0 := Pod(Load, Some(u.stops[0].id), PodSubmitted)]))
  {
    assert u.stops[1].finishedAt.None? && u.stops[1].kind == Unload;
  }

  lemma {:induction false} FilesFirstOffSite() returns (events: seq<Event>, u: World)
    ensures Reached(Trip(), events, u) && FiledOffSite(u)
  {
    var a, x := ChecksOffSite();
    FilesOffSite(x, |a|);
    FiledIsLast(x);
    events, u := Go(Trip(), a, x, Submit(Driver(x), Load, Some(x.stops[0].id), true, 0));
  }

  lemma ChecksOffSite() returns (events: seq<Event>, u: World)
    ensures Reached(Trip(), events, u) && StartedOffSite(u) && u.stops[0].cargoCheckedAt.Some?
  {
    var a, x := StartsOffSite();
    events, u := ChecksRow(Trip(), a, x, 0);
  }

  lemma {:induction false} ApprovesOffSite(u: World, now: Time)
    requires Safe(u) && FiledOffSite(u)
    ensures var v := ReviewPod(u, Planner(u), 0, true, true, now).world;
            Doomed(v) && Pending(v, Unload) && v.shipment.status == SHIPMENT_TO_LOADING
  {
    ApprovalOutcome(u, Planner(u), 0, true, now);
    UnloadStaysPending(u, Planner(u), 0, true, now);
    LastLoadingApprovalDoomsIff(u, Planner(u), 0, true, now);
  }

  /** A clean run that loses a delivery at its loading point. */
  lemma {:induction false} LoadingEarlyDooms() returns (events: seq<Event>)
    ensures Fresh(Trip()) && CleanRun(Trip(), events)
    ensures var v := Run(Trip(), events);
            Doomed(v) && v.shipment.status == SHIPMENT_TO_LOADING && Pending(v, Unload)
  {
    TripIsFresh();
    var a, x := FilesFirstOffSite();
    ApprovesOffSite(x, |a|);
    var v;
    events, v := Go(Trip(), a, x, Review(Planner(x), 0, true, true));
  }

  // ---- Unloading closed before loading -------------------------------------------------------

  /** With more than two points, unloading can be closed while no loading point is, and the approval
      that does so takes the shipment past `loaded`. */
  lemma {:induction false} MorePointsBreakLoaded(w: World) returns (events: seq<Event>)
    requires Fresh(w) && w.shipment.driver.Some? && |w.stops| > 2
    ensures CleanRun(w, events) && !LoadedMeansLoadingDone(Run(w, events)) && Stranded(Run(w, events))
  {
    FreshIsSafe(w);
    var a, x := GoesRound(w, [], w, 0);
    var b, y := DrivesTo(w, a, x, Load);
    CalmJoins(w, x, y);
    CalmKeepsPending(w, y);
    NothingClosedYet(w, y);
    var v;
    events, v := FinishesStage(w, b, y, Unload, 0);
  }

  lemma NothingClosedYet(w: World, u: World)
    requires Fresh(w) && Calm(w, u)
    ensures !AllFinished(u, Load) && !AllFinished(u, Unload)
  {
    var l :| 0 <= l < |w.stops| && w.stops[l].kind == Load;
    var r :| 0 <= r < |w.stops| && w.stops[r].kind == Unload;
    assert u.stops[l].finishedAt.None? && u.stops[r].finishedAt.None?;
  }

  /** "At or past loaded means every loading stop is closed" holds in every clean run exactly of the
      journeys of two ends. */
  lemma LoadedMeansLoadingDoneIff(w: World)
    requires Fresh(w) && w.shipment.driver.Some?
    ensures |w.stops| <= 2 <==> forall events :: CleanRun(w, events) ==> LoadedMeansLoadingDone(Run(w, events))
  {
    if |w.stops| <= 2 {
      forall events | CleanRun(w, events)
        ensures LoadedMeansLoadingDone(Run(w, events))
      {
        TwoEndsKeepLoaded(w, events);
      }
    } else {
      var events := MorePointsBreakLoaded(w);
    }
  }
}
