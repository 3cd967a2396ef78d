/** The exact limits of the journey's promises: where the expected claims about it fail, shown by
    runs, and exactly when they hold. */
module JourneyLimits {
  import opened Status
  import opened Stops
  import opened Journey
  import opened Walking
  import opened JourneySafety
  import opened JourneyResults

  // ---- "Loaded" does not mean that loading is done -------------------------------------------

  /** The invariant one would expect, and which does not hold. */
  ghost predicate LoadedMeansLoadingDone(w: World) {
    AtOrPast(w.shipment.status, SHIPMENT_LOADED) ==> AllFinished(w, Load)
  }

  /** The one call that breaks it: the approval of the last unloading POD while the shipment reads
      `loading` and a loading stop is open. */
  ghost predicate ClosesUnloadingEarly(w: World, e: Event) {
    && Approves(e) && MayDecide(w, e.actor)
    && InReview(w, e.pod, Unload) && LastOfItsStage(w, e.pod)
    && w.shipment.status == SHIPMENT_LOADING && !AllFinished(w, Load)
  }

  lemma {:induction false} LoadedMeansLoadingDoneBreaksIff(w: World, e: Event, now: Time)
    requires Safe(w) && CleanEvent(w, e) && LoadedMeansLoadingDone(w)
    ensures LoadedMeansLoadingDone(Apply(w, e, now).world) <==> !ClosesUnloadingEarly(w, e)
  {
    if Approves(e) {
      if e.pod in w.pods && w.pods[e.pod].status == PodSubmitted && MayDecide(w, e.actor) {
        ApprovalOutcome(w, e.actor, e.pod, e.reason, now);
      }
    } else {
      OnlyApprovalsFinish(w, e, now);
      SameFinishSameKinds(w, Apply(w, e, now).world);
    }
  }

  // ---- Closing the last unloading stop early strands the delivery ----------------------------

  /** Unloading is closed for good and the shipment never signed it off. */
  ghost predicate Stranded(w: World) {
    AllFinished(w, Unload) && NoneInReview(w, Unload) && !AtOrPast(w.shipment.status, SHIPMENT_UNLOADED)
  }

  /** The approval of the last unloading POD finishes shipment and order exactly when the shipment
      has reached `unloading`; otherwise it is refused half way and the delivery is stranded. */
  lemma LastUnloadingApprovalFinishesIff(w: World, a: Actor, pod: PodId, reason: bool, now: Time)
    requires Safe(w) && InReview(w, pod, Unload) && LastOfItsStage(w, pod) && MayDecide(w, a)
    ensures var r := ReviewPod(w, a, pod, true, reason, now);
            var v := r.world;
            if AtOrPast(w.shipment.status, SHIPMENT_UNLOADING) then
              r.failure.None? && v.shipment.status == SHIPMENT_FINISHED && v.order.status == OrderCompleted
            else
              Stranded(v) && (r.failure.None? <==> w.shipment.status == SHIPMENT_CANCELLED)
  {
    ApprovalOutcome(w, a, pod, reason, now);
  }

  lemma SamePodsSameReviews(w: World, v: World, stage: Kind)
    requires v.pods == w.pods && NoneInReview(w, stage)
    ensures NoneInReview(v, stage)
  {
    forall p ensures InReview(v, p, stage) <==> InReview(w, p, stage) {}
  }

  /** With every stop of a stage finished, no submission for it is accepted any more. */
  lemma NoNewReview(w: World, e: Event, stage: Kind, now: Time)
    requires Safe(w) && CleanEvent(w, e) && AllFinished(w, stage) && NoneInReview(w, stage) && !Approves(e)
    ensures NoneInReview(Apply(w, e, now).world, stage)
  {
    var v := Apply(w, e, now).world;
    if e.Submit? {
      NoNewSubmission(w, e.actor, e.stage, e.named, e.photos, e.pod, stage);
    } else if e.Review? {
      forall p | InReview(v, p, stage) ensures InReview(w, p, stage) {}
    } else {
      OthersKeepPods(w, e, now);
      SamePodsSameReviews(w, v, stage);
    }
  }

  lemma OthersKeepPods(w: World, e: Event, now: Time)
    requires !e.Submit? && !e.Review?
    ensures Apply(w, e, now).world.pods == w.pods
  {
    match e
    case Start(a, stop, handover, fence) => StartKeepsPods(w, a, stop, handover, fence, now);
    case Move(a, to, handover, fence) => StepFacts(w, w.order.status, a, to, MachineRole(a, w.order), fence, now);
    case _ =>
  }

  lemma StartKeepsPods(w: World, a: Actor, stop: StopId, handover: bool, fence: Fence, now: Time)
    ensures StartStop(w, a, stop, handover, fence, now).world.pods == w.pods
  {
    var i := IndexOf(w.stops, stop);
    if i >= 0 {
      WalkOnlyClimbs(WithStop(w, i, w.stops[i].(startedAt := Some(now))), w.order.status, a,
                     StatusForStop(w.stops[i].kind), MachineRole(a, w.order), fence, now);
    }
  }

  lemma NoNewSubmission(w: World, a: Actor, stage: Kind, named: Option<StopId>, photos: bool, pod: PodId, done: Kind)
    requires PodsSafe(w) && AllFinished(w, done) && NoneInReview(w, done)
    requires named.Some? ==> exists k :: 0 <= k < |w.stops| && w.stops[k].id == named.value && w.stops[k].kind == stage
    ensures NoneInReview(SubmitPod(w, a, stage, named, photos, pod).world, done)
  {
    var v := SubmitPod(w, a, stage, named, photos, pod).world;
    if stage == done && !HasApproved(w.pods, stage, ResolveStop(w, stage, named)) {
      var i := AcceptedSubmissionNamesOpenStop(w, stage, named);
      assert false;
    }
    forall p | InReview(v, p, done) ensures InReview(w, p, done) {}
  }

  lemma StrandedStaysStranded(w: World, e: Event, now: Time)
    requires Safe(w) && CleanEvent(w, e) && Stranded(w)
    ensures Stranded(Apply(w, e, now).world)
  {
    if Approves(e) {
      if e.pod in w.pods && w.pods[e.pod].status == PodSubmitted && MayDecide(w, e.actor) {
        assert InReview(w, e.pod, w.pods[e.pod].stage);
        ApprovalOutcome(w, e.actor, e.pod, e.reason, now);
      }
    } else {
      OnlyApprovalsFinish(w, e, now);
      SameFinishSameKinds(w, Apply(w, e, now).world);
      NoNewReview(w, e, Unload, now);
    }
  }

  /** No clean continuation ever signs a stranded delivery off. */
  lemma {:induction false} StrandedForever(w: World, events: seq<Event>, n: nat)
    requires Fresh(w) && CleanRun(w, events) && n <= |events|
    requires Stranded(Run(w, events[..n]))
    ensures Stranded(Run(w, events))
    decreases |events|
  {
    if n == |events| {
      assert events[..n] == events;
    } else {
      var before, e := events[..|events| - 1], events[|events| - 1];
      assert events == before + [e] && before[..n] == events[..n];
      RunExtends(w, before, e);
      StrandedForever(w, before, n);
      FreshIsSafe(w);
      CleanRunsAreSafe(w, before);
      StrandedStaysStranded(Run(w, before), e, |before|);
    }
  }
}
