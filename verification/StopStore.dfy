/** The stored stop rows of an order: how a planner's writes rebuild them, and how the driver's first
    visit freezes them. */
module StopStore {
  import opened Status
  import opened Stops
  import opened Planner

  /** What the database holds of one order: its detail, its two warehouse columns and its stop rows.
      Ids from `nextId` on have never been given to a row. */
  datatype Store = Store(order: PlannedOrder, stops: seq<Stop>, nextId: StopId)

  datatype Refusal = BadSequence(fault: Fault) | AlreadyStarted

  // ---- Rebuilding the rows -------------------------------------------------------------------

  predicate Matches(stop: Stop, row: Row) {
    stop.seqNo == row.seqNo && stop.kind == row.kind && stop.shipmentNo == row.shipmentNo
        && stop.warehouse == row.warehouse
  }

  predicate SameJourney(have: seq<Stop>, want: seq<Row>) {
    |have| == |want| && forall i :: 0 <= i < |have| ==> Matches(have[i], want[i])
  }

  predicate IsVisited(stop: Stop) { stop.arrivedAt.Some? || stop.startedAt.Some? || stop.finishedAt.Some? }

  predicate AnyVisited(stops: seq<Stop>) { exists i :: 0 <= i < |stops| && IsVisited(stops[i]) }

  function NewStop(row: Row, id: StopId): Stop {
    Stop(id, row.seqNo, row.kind, row.shipmentNo, row.warehouse, None, None, None, None, None)
  }

  function NewStops(rows: seq<Row>, n: nat, first: StopId): (stops: seq<Stop>)
    requires n <= |rows|
    ensures |stops| == n && forall i :: 0 <= i < n ==> stops[i] == NewStop(rows[i], first + i)
  {
    if n == 0 then [] else NewStops(rows, n - 1, first) + [NewStop(rows[n - 1], first + n - 1)]
  }

  /** The edge's check of a stored choice: against the lists alone, and only when it can be read. */
  ghost predicate PassesEdge(order: PlannedOrder) {
    var chosen := StoredSequence(order.detail.stopSequence);
    chosen == [] || IsVisitPlan(chosen, |WarehouseList(order.detail.loadingPoints)|,
        |WarehouseList(order.detail.unloadingPoints)|)
  }

  /** The rows after SyncStops: kept when they already describe the points, when the journey has
      begun or when there is no point to visit; otherwise written anew. */
  ghost function Synced(st: Store): Store {
    var want := RowsOf(st.order);
    if !PassesEdge(st.order) || SameJourney(st.stops, want) || AnyVisited(st.stops) || want == [] then st
    else Store(st.order, NewStops(want, |want|, st.nextId), st.nextId + |want|)
  }

  ghost predicate SyncSucceeds(st: Store) {
    PassesEdge(st.order) && (SameJourney(st.stops, RowsOf(st.order)) || !AnyVisited(st.stops))
  }

  // ---- The planner's writes ------------------------------------------------------------------

  function WithSequence(order: PlannedOrder, entries: seq<Entry>): PlannedOrder {
    order.(detail := order.detail.(stopSequence := if entries == [] then None else Some(entries)))
  }

  ghost function SequenceSet(st: Store, entries: seq<Entry>): Store {
    var candidate := WithSequence(st.order, entries);
    if PassesEdge(candidate) then Synced(st.(order := candidate)) else st
  }

  datatype Change<T> = Keep | Remove | Put(value: T)

  datatype Patch = Patch(
    loadingPoints: Change<seq<Item>>, unloadingPoints: Change<seq<Item>>, stopSequence: Change<seq<Entry>>)
  {
    predicate TouchesPoints() { !loadingPoints.Keep? || !unloadingPoints.Keep? }
  }

  function Changed<T>(old_: Option<T>, change: Change<T>): Option<T> {
    match change case Keep => old_ case Remove => None case Put(v) => Some(v)
  }

  function Patched(order: PlannedOrder, p: Patch): PlannedOrder {
    order.(detail := Detail(Changed(order.detail.loadingPoints, p.loadingPoints),
                            Changed(order.detail.unloadingPoints, p.unloadingPoints),
                            Changed(order.detail.stopSequence, p.stopSequence)))
  }

  ghost function DetailPatched(st: Store, p: Patch): Store {
    var stored := st.(order := Patched(st.order, p));
    if p.TouchesPoints() then Synced(stored) else stored
  }

  // ---- The driver's reports ------------------------------------------------------------------

  datatype Progress = Arrived | Started | Checked | Finished(pod: PodId)

  function Recorded(stop: Stop, p: Progress, now: Time): Stop {
    match p
    case Arrived => stop.(arrivedAt := Some(now))
    case Started => stop.(startedAt := Some(now))
    case Checked => stop.(cargoCheckedAt := Some(now))
    case Finished(pod) => stop.(finishedAt := Some(now), podId := Some(pod))
  }

  function Reported(st: Store, id: StopId, p: Progress, now: Time): Store {
    var i := IndexOf(st.stops, id);
    if i < 0 then st else st.(stops := st.stops[i := Recorded(st.stops[i], p, now)])
  }

  // ---- The order and its rows, updated in place ----------------------------------------------

  class OrderStops {
    var detail: Detail
    var stops: seq<Stop>
    var nextId: StopId
    const origin: Option<string>
    const destination: Option<string>

    function Order(): PlannedOrder reads this { PlannedOrder(detail, origin, destination) }

    function View(): Store reads this { Store(Order(), stops, nextId) }

    constructor (detail: Detail, origin: Option<string>, destination: Option<string>)
      ensures View() == Store(PlannedOrder(detail, origin, destination), [], 0)
    {
      this.detail, this.stops, this.nextId := detail, [], 0;
      this.origin, this.destination := origin, destination;
    }

    /** Nothing to write is nothing to do; otherwise the old rows go and the new ones get new ids. */
    method Replace(rows: seq<Row>)
      modifies this`stops, this`nextId
      ensures if rows == [] then View() == old(View())
              else View() == Store(old(Order()), NewStops(rows, |rows|, old(nextId)), old(nextId) + |rows|)
    {
      if rows == [] { return; }
      var first := nextId;
      stops := [];
      for n := 0 to |rows|
        invariant stops == NewStops(rows, n, first) && nextId == first + n
      {
        stops, nextId := stops + [NewStop(rows[n], nextId)], nextId + 1;
      }
    }

    method ValidateStopSequence(order: PlannedOrder) returns (fault: Option<Fault>)
      ensures fault.None? <==> PassesEdge(order)
    {
      var chosen := StoredSequence(order.detail.stopSequence);
      if chosen == [] { return None; }
      fault := ValidateSequence(chosen, |WarehouseList(order.detail.loadingPoints)|,
          |WarehouseList(order.detail.unloadingPoints)|);
    }

    method SyncStops() returns (refusal: Option<Refusal>)
      modifies this`stops, this`nextId
      ensures View() == Synced(old(View()))
      ensures refusal.None? <==> SyncSucceeds(old(View()))
      ensures PassesEdge(old(Order())) && refusal.Some? ==> refusal.value == AlreadyStarted
      ensures refusal.Some? ==> stops == old(stops)
      ensures stops != old(stops) ==> SameJourney(stops, RowsOf(Order())) && forall i :: 0 <= i < |stops| ==>
                stops[i].id == old(nextId) + i && !stops[i].Visited() && stops[i].startedAt.None?
                && stops[i].cargoCheckedAt.None? && stops[i].podId.None?
    {
      var fault := ValidateStopSequence(Order());
      if fault.Some? { return Some(BadSequence(fault.value)); }
      var want := StopsForOrder(Order());
      if SameJourney(stops, want) { return None; }
      if AnyVisited(stops) { return Some(AlreadyStarted); }
      Replace(want);
      refusal := None;
    }

    /** The choice is checked before anything is written, and written before the rows are rebuilt. */
    method SetStopSequence(entries: seq<Entry>) returns (refusal: Option<Refusal>)
      modifies this`detail, this`stops, this`nextId
      ensures View() == SequenceSet(old(View()), entries)
      ensures refusal.None? <==> SyncSucceeds(old(View()).(order := WithSequence(old(Order()), entries)))
      ensures refusal.Some? && refusal.value.BadSequence? ==> View() == old(View())
      ensures refusal.None? || refusal.value == AlreadyStarted ==>
                detail.stopSequence == if entries == [] then None else Some(entries)
      ensures detail.loadingPoints == old(detail.loadingPoints) && detail.unloadingPoints == old(detail.unloadingPoints)
    {
      var candidate := WithSequence(Order(), entries);
      var fault := ValidateStopSequence(candidate);
      if fault.Some? { return Some(BadSequence(fault.value)); }
      detail := candidate.detail;
      refusal := SyncStops();
    }

    /** Each key put is stored under its own name, a key removed is gone and the others stay. A patch
        never fails for the rows' sake: a refused rebuild is only logged. */
    method PatchDetail(p: Patch)
      modifies this`detail, this`stops, this`nextId
      ensures match p.loadingPoints
              case Keep => detail.loadingPoints == old(detail.loadingPoints)
              case Remove => detail.loadingPoints == None
              case Put(v) => detail.loadingPoints == Some(v)
      ensures match p.unloadingPoints
              case Keep => detail.unloadingPoints == old(detail.unloadingPoints)
              case Remove => detail.unloadingPoints == None
              case Put(v) => detail.unloadingPoints == Some(v)
      ensures match p.stopSequence
              case Keep => detail.stopSequence == old(detail.stopSequence)
              case Remove => detail.stopSequence == None
              case Put(v) => detail.stopSequence == Some(v)
      ensures p.loadingPoints.Keep? && p.unloadingPoints.Keep? ==> stops == old(stops) && nextId == old(nextId)
      ensures !(p.loadingPoints.Keep? && p.unloadingPoints.Keep?) ==>
                View() == Synced(Store(Order(), old(stops), old(nextId)))
      ensures View() == DetailPatched(old(View()), p)
    {
      detail := Patched(Order(), p).detail;
      if !p.TouchesPoints() { return; }
      var ignored := SyncStops();
    }

    method UpdateFields(id: StopId, p: Progress, now: Time)
      modifies this`stops
      ensures View() == Reported(old(View()), id, p, now)
      ensures var at := IndexOf(old(stops), id);
              if at < 0 then stops == old(stops)
              else
                && |stops| == |old(stops)| && (forall k :: 0 <= k < |stops| && k != at ==> stops[k] == old(stops)[k])
                && match p
                   case Arrived => stops[at] == old(stops)[at].(arrivedAt := Some(now))
                   case Started => stops[at] == old(stops)[at].(startedAt := Some(now))
                   case Checked => stops[at] == old(stops)[at].(cargoCheckedAt := Some(now))
                   case Finished(pod) => stops[at] == old(stops)[at].(finishedAt := Some(now), podId := Some(pod))
    {
      for i := 0 to |stops|
        invariant stops == old(stops) && IndexOf(stops, id) == IndexOf(stops, id, i)
      {
        if stops[i].id == id {
          stops := stops[i := Recorded(stops[i], p, now)];
          return;
        }
      }
    }
  }

  // ---- Runs ----------------------------------------------------------------------------------

  datatype Event =
    | SetSequence(entries: seq<Entry>)
    | PatchIt(patch: Patch)
    | Sync
    | Report(id: StopId, progress: Progress, now: Time)

  ghost function Apply(st: Store, e: Event): Store {
    match e
    case SetSequence(entries) => SequenceSet(st, entries)
    case PatchIt(p) => DetailPatched(st, p)
    case Sync => Synced(st)
    case Report(id, p, now) => Reported(st, id, p, now)
  }

  ghost function Run(st: Store, events: seq<Event>): Store
    decreases |events|
  {
    if events == [] then st else Run(Apply(st, events[0]), events[1..])
  }

  /** The same row, with nothing recorded on it lost. */
  predicate SameVisit(a: Stop, b: Stop) {
    && a.id == b.id && a.seqNo == b.seqNo && a.kind == b.kind && a.shipmentNo == b.shipmentNo
         && a.warehouse == b.warehouse
    && (a.arrivedAt.Some? ==> b.arrivedAt.Some?) && (a.startedAt.Some? ==> b.startedAt.Some?)
    && (a.finishedAt.Some? ==> b.finishedAt.Some?) && (a.cargoCheckedAt.Some? ==> b.cargoCheckedAt.Some?)
    && (a.podId.Some? ==> b.podId.Some?)
  }

  ghost predicate SameRows(a: seq<Stop>, b: seq<Stop>) {
    |a| == |b| && forall i :: 0 <= i < |a| ==> SameVisit(a[i], b[i])
  }

  lemma VisitedStaysVisited(a: seq<Stop>, b: seq<Stop>)
    requires AnyVisited(a) && SameRows(a, b)
    ensures AnyVisited(b)
  {
  }

  /** Once one stop has been arrived at, started or finished, no sequence of writes and reports, made
      in any order and as often as one likes, changes which rows there are or takes back a record. */
  lemma {:induction false} VisitedJourneyIsFrozen(st: Store, events: seq<Event>)
    requires AnyVisited(st.stops)
    ensures SameRows(st.stops, Run(st, events).stops) && AnyVisited(Run(st, events).stops)
    decreases |events|
  {
    if events != [] {
      var next := Apply(st, events[0]);
      assert SameRows(st.stops, next.stops);
      VisitedStaysVisited(st.stops, next.stops);
      VisitedJourneyIsFrozen(next, events[1..]);
      var end := Run(next, events[1..]).stops;
      forall i | 0 <= i < |st.stops| ensures SameVisit(st.stops[i], end[i]) {
        assert SameVisit(st.stops[i], next.stops[i]) && SameVisit(next.stops[i], end[i]);
      }
    }
  }

  /** A SyncStops that succeeds makes the rows describe the order's points, and asked again it
      writes nothing. */
  lemma SyncIsIdempotent(st: Store)
    requires SyncSucceeds(st)
    ensures RowsOf(st.order) != [] ==> SameJourney(Synced(st).stops, RowsOf(st.order))
    ensures Synced(Synced(st)) == Synced(st) && SyncSucceeds(Synced(st))
  {
  }

  /** The rows and the points they were made from agree. */
  ghost predicate InStep(st: Store) { SameJourney(st.stops, RowsOf(st.order)) }

  /** A choice is stored before the rows are rebuilt, so there is one way it leaves order and rows
      apart: it is valid, it asks for another journey, and the journey has begun. */
  lemma {:induction false} ChoiceLeavesStepIff(st: Store, entries: seq<Entry>)
    requires InStep(st) && RowsOf(st.order) != []
    ensures var asked := WithSequence(st.order, entries);
            InStep(SequenceSet(st, entries)) <==>
              !(PassesEdge(asked) && AnyVisited(st.stops) && !SameJourney(st.stops, RowsOf(asked)))
  {
    var asked := WithSequence(st.order, entries);
    var moved := st.(order := asked);
    if PassesEdge(asked) && SyncSucceeds(moved) {
      assert RowsOf(asked) != [] by { RowsStayThere(st.order, entries); }
      SyncIsIdempotent(moved);
    }
  }

  /** Two loads and an unload, with the default order and with the loads the other way round. */
  function Wizard(chosen: Option<seq<Entry>>): PlannedOrder {
    PlannedOrder(Detail(Some([Text("a"), Text("b")]), Some([Text("c")]), chosen), None, None)
  }

  const SWAPPED: seq<StopRef> := [StopRef(Load, 1), StopRef(Load, 0), StopRef(Unload, 0)]

  lemma WizardLists(chosen: Option<seq<Entry>>)
    ensures LoadsOf(Wizard(chosen)) == WarehouseList(Wizard(chosen).detail.loadingPoints) == ["a", "b"]
    ensures UnloadsOf(Wizard(chosen)) == WarehouseList(Wizard(chosen).detail.unloadingPoints) == ["c"]
  {
  }

  lemma SwappedIsAPlan()
    ensures IsVisitPlan(SWAPPED, 2, 1)
  {
  }

  lemma WizardRows(chosen: Option<seq<Entry>>)
    ensures var rows, plan := RowsOf(Wizard(chosen)), PlanOf(Wizard(chosen));
            |rows| == 3 == |plan| && rows[0].shipmentNo == plan[0].index + 1
  {
    WizardLists(chosen);
    var plan := PlanOf(Wizard(chosen));
    assert "" !in ["a", "b"] && "" !in ["c"];
    RowsOfAPlan(RowsOf(Wizard(chosen)), plan, ["a", "b"], ["c"]);
    assert RowsOf(Wizard(chosen))[0] == RowAt(plan, 0, ["a", "b"], ["c"]);
  }

  lemma {:induction false} WizardChoices()
    ensures var before, after := Wizard(None), Wizard(Some(Written(SWAPPED)));
            && |RowsOf(before)| == |RowsOf(after)| == 3 && PassesEdge(after)
            && RowsOf(before)[0].shipmentNo == 1 && RowsOf(after)[0].shipmentNo == 2
  {
    WizardLists(None);
    WizardLists(Some(Written(SWAPPED)));
    WizardRows(None);
    WizardRows(Some(Written(SWAPPED)));
    WrittenReadsBack(SWAPPED);
    SwappedIsAPlan();
    assert PlanOf(Wizard(None)) == DefaultOrder(2, 1);
  }

  /** The driver is at the first stop; the planner asks for the other one first, is refused, and the
      order keeps the refused choice. */
  lemma {:induction false} ChoiceLeftBehind() returns (st: Store, entries: seq<Entry>)
    ensures InStep(st) && AnyVisited(st.stops)
    ensures !SyncSucceeds(st.(order := WithSequence(st.order, entries)))
    ensures SequenceSet(st, entries).order == WithSequence(st.order, entries) && !InStep(SequenceSet(st, entries))
  {
    WizardChoices();
    st := Store(Wizard(None), AtTheFirst(RowsOf(Wizard(None))), 3);
    entries := Written(SWAPPED);
    OtherFirstRow(st.stops, RowsOf(Wizard(None)), RowsOf(Wizard(Some(entries))));
    assert WithSequence(st.order, entries) == Wizard(Some(entries));
    ChoiceLeavesStepIff(st, entries);
  }

  function AtTheFirst(rows: seq<Row>): (stops: seq<Stop>)
    requires rows != []
    ensures SameJourney(stops, rows) && IsVisited(stops[0]) && AnyVisited(stops)
  {
    var stops := NewStops(rows, |rows|, 0);
    stops[0 := stops[0].(arrivedAt := Some(5))]
  }

  lemma OtherFirstRow(stops: seq<Stop>, have: seq<Row>, want: seq<Row>)
    requires SameJourney(stops, have) && have != [] && want != [] && have[0].shipmentNo != want[0].shipmentNo
    ensures !SameJourney(stops, want)
  {
    assert Matches(stops[0], have[0]);
  }

  /** Another visit order of the same points has the same number of rows. */
  lemma RowsStayThere(order: PlannedOrder, entries: seq<Entry>)
    requires RowsOf(order) != []
    ensures RowsOf(WithSequence(order, entries)) != []
  {
    var asked := WithSequence(order, entries);
    var i := SomeNamedPoint(PlanOf(order), |PlanOf(order)|, LoadsOf(order), UnloadsOf(order));
    PlanHasEveryPointOnce(PlanOf(order), |LoadsOf(order)|, |UnloadsOf(order)|, PlanOf(order)[i]);
    PlanHasEveryPointOnce(PlanOf(asked), |LoadsOf(asked)|, |UnloadsOf(asked)|, PlanOf(order)[i]);
    var j :| 0 <= j < |PlanOf(asked)| && PlanOf(asked)[j] == PlanOf(order)[i];
    NamedPointHasRow(PlanOf(asked), j, |PlanOf(asked)|, LoadsOf(asked), UnloadsOf(asked));
  }

  lemma {:induction false} SomeNamedPoint(plan: seq<StopRef>, n: nat, loads: seq<string>, unloads: seq<string>)
      returns (i: nat)
    requires n <= |plan| && Rows(plan, n, loads, unloads) != []
    ensures i < n && Warehouse(plan[i], loads, unloads) != ""
  {
    if Rows(plan, n - 1, loads, unloads) == [] {
      i := n - 1;
    } else {
      i := SomeNamedPoint(plan, n - 1, loads, unloads);
    }
  }

  lemma {:induction false} NamedPointHasRow(plan: seq<StopRef>, j: nat, n: nat, loads: seq<string>,
      unloads: seq<string>)
    requires j < n <= |plan| && Warehouse(plan[j], loads, unloads) != ""
    ensures Rows(plan, n, loads, unloads) != []
  {
    if j < n - 1 { NamedPointHasRow(plan, j, n - 1, loads, unloads); }
  }

  // ---- What is read back ---------------------------------------------------------------------

  ghost predicate InVisitOrder(stops: seq<Stop>) {
    forall i, j :: 0 <= i < j < |stops| ==> stops[i].seqNo < stops[j].seqNo
  }

  lemma {:induction false} RowsAreNumbered(plan: seq<StopRef>, n: nat, loads: seq<string>, unloads: seq<string>)
    requires n <= |plan|
    ensures forall i :: 0 <= i < |Rows(plan, n, loads, unloads)| ==> Rows(plan, n, loads, unloads)[i].seqNo == i + 1
  {
    if n > 0 { RowsAreNumbered(plan, n - 1, loads, unloads); }
  }

  ghost predicate WellKept(st: Store) {
    && InVisitOrder(st.stops) && DistinctIds(st.stops)
    && forall i :: 0 <= i < |st.stops| ==> st.stops[i].id < st.nextId
  }

  /** Every write keeps the rows strictly in visit order, so that a list ordered by `seq` is the list
      as written, and no id is ever used for two rows, not even of two rebuilds. */
  lemma {:induction false} RowsStayInVisitOrder(st: Store, events: seq<Event>)
    requires WellKept(st)
    ensures WellKept(Run(st, events)) && st.nextId <= Run(st, events).nextId
    decreases |events|
  {
    if events != [] {
      CallKeepsRows(st, events[0]);
      RowsStayInVisitOrder(Apply(st, events[0]), events[1..]);
    }
  }

  lemma SyncKeepsRows(st: Store)
    requires WellKept(st)
    ensures WellKept(Synced(st)) && st.nextId <= Synced(st).nextId
  {
    if LoadsOf(st.order) != [] && UnloadsOf(st.order) != [] {
      RowsAreNumbered(PlanOf(st.order), |PlanOf(st.order)|, LoadsOf(st.order), UnloadsOf(st.order));
    }
  }

  lemma {:induction false} CallKeepsRows(st: Store, e: Event)
    requires WellKept(st)
    ensures WellKept(Apply(st, e)) && st.nextId <= Apply(st, e).nextId
  {
    match e
    case SetSequence(entries) => SyncKeepsRows(st.(order := WithSequence(st.order, entries)));
    case PatchIt(p) => SyncKeepsRows(st.(order := Patched(st.order, p)));
    case Sync => SyncKeepsRows(st);
    case Report(id, p, now) =>
  }
}
