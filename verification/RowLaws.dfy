/** What an order says about its points, and the stop rows that come of it, said of the lists as they
    are stored: nothing here speaks of how the planner gets from the one to the other. */
module RowLaws {
  import opened Status
  import opened Stops
  import opened Planner
  import opened StopStore

  // ---- Reading the detail --------------------------------------------------------------------

  /** Both vocabularies are read, the console's and the code's; a number is cut off towards zero; an
      entry of any other shape cannot be read. */
  lemma EntryMeans(e: Entry)
    ensures IsReadable(e) <==> && e.Entry? && e.index.Some?
                               && e.kind in {Text("muat"), Text("load"), Text("bongkar"), Text("unload")}
    ensures IsReadable(e) ==>
              var r := ReadEntry(e);
              && (r.kind == Load <==> e.kind == Text("muat") || e.kind == Text("load"))
              && (e.index.value >= 0.0 ==> r.index as real <= e.index.value < r.index as real + 1.0)
              && (e.index.value <= 0.0 ==> r.index as real - 1.0 < e.index.value <= r.index as real)
  {
  }

  /** One entry that cannot be read and the whole choice is none; otherwise it is read entry by entry. */
  lemma ChoiceIsReadWhole(entries: seq<Entry>)
    ensures var refs := StoredSequence(Some(entries));
            if forall i :: 0 <= i < |entries| ==> IsReadable(entries[i]) then
              |refs| == |entries| && forall i :: 0 <= i < |entries| ==> refs[i] == ReadEntry(entries[i])
            else refs == []
    ensures StoredSequence(None) == []
  {
  }

  /** A list in which every point is named. */
  ghost predicate Lists(items: Option<seq<Item>>, names: seq<string>) {
    && items.Some? && |items.value| == |names| && "" !in names
    && forall i :: 0 <= i < |names| ==> items.value[i] == Text(names[i])
  }

  lemma {:induction false} ListNamesItsPoints(items: seq<Item>, names: seq<string>)
    requires Lists(Some(items), names)
    ensures WarehouseList(Some(items)) == names
  {
    if items != [] { ListNamesItsPoints(items[1..], names[1..]); }
  }

  /** A blank entry, or one of another type, is passed over wherever it stands. */
  lemma {:induction false} BlanksArePassedOver(a: seq<Item>, blank: Item, b: seq<Item>)
    requires blank == Text("") || blank == NotText
    ensures WarehouseList(Some(a + [blank] + b)) == WarehouseList(Some(a + b))
    decreases |a|
  {
    if a == [] {
      assert (a + [blank] + b)[1..] == b == a + b;
    } else {
      assert (a + [blank] + b)[1..] == a[1..] + [blank] + b && (a + b)[1..] == a[1..] + b;
      BlanksArePassedOver(a[1..], blank, b);
    }
  }

  // ---- The rows ------------------------------------------------------------------------------

  /** The rows of one kind are the points of its list: as many, each named and numbered by its place. */
  ghost predicate Serves(stops: seq<Stop>, kind: Kind, names: seq<string>) {
    && (forall i :: 0 <= i < |stops| && stops[i].kind == kind ==>
          1 <= stops[i].shipmentNo <= |names| && stops[i].warehouse == names[stops[i].shipmentNo - 1])
    && (forall i, j :: 0 <= i < j < |stops| && stops[i].kind == kind && stops[j].kind == kind ==>
          stops[i].shipmentNo != stops[j].shipmentNo)
    && (forall n :: 1 <= n <= |names| ==> IsServed(stops, kind, n))
  }

  ghost predicate IsServed(stops: seq<Stop>, kind: Kind, n: nat) {
    exists i :: 0 <= i < |stops| && stops[i].kind == kind && stops[i].shipmentNo == n
  }

  /** The two lists of an order, every point of them named, two hundred at most. */
  ghost predicate IsListed(order: PlannedOrder, loads: seq<string>, unloads: seq<string>) {
    && Lists(order.detail.loadingPoints, loads) && Lists(order.detail.unloadingPoints, unloads)
    && loads != [] && unloads != [] && |loads| + |unloads| <= 200
  }

  lemma ListsWin(order: PlannedOrder, loads: seq<string>, unloads: seq<string>)
    requires IsListed(order, loads, unloads)
    ensures LoadsOf(order) == WarehouseList(order.detail.loadingPoints) == loads
    ensures UnloadsOf(order) == WarehouseList(order.detail.unloadingPoints) == unloads
  {
    ListNamesItsPoints(order.detail.loadingPoints.value, loads);
    ListNamesItsPoints(order.detail.unloadingPoints.value, unloads);
  }

  /** The row is the point of the plan at its place. */
  lemma RowIsAPoint(order: PlannedOrder, stops: seq<Stop>, loads: seq<string>, unloads: seq<string>, i: nat)
    requires IsListed(order, loads, unloads) && SameJourney(stops, RowsOf(order)) && i < |stops|
    ensures i < |PlanOf(order)| && StopRef(stops[i].kind, stops[i].shipmentNo - 1) == PlanOf(order)[i]
    ensures var names := if stops[i].kind == Load then loads else unloads;
            1 <= stops[i].shipmentNo <= |names| && stops[i].warehouse == names[stops[i].shipmentNo - 1]
    ensures forall j :: 0 <= j < i && stops[j].kind == stops[i].kind ==> stops[j].shipmentNo != stops[i].shipmentNo
  {
    ListsWin(order, loads, unloads);
    var rows, plan := RowsOf(order), PlanOf(order);
    RowsOfAPlan(rows, plan, loads, unloads);
    RowsReadBack(rows, plan, loads, unloads, i);
    assert Matches(stops[i], rows[i]);
    forall j | 0 <= j < i && stops[j].kind == stops[i].kind ensures stops[j].shipmentNo != stops[i].shipmentNo {
      assert Matches(stops[j], rows[j]);
    }
  }

  /** Rows that describe an order's points serve its two lists, each its own kind. */
  lemma {:induction false} RowsServeTheLists(order: PlannedOrder, stops: seq<Stop>, loads: seq<string>,
      unloads: seq<string>)
    requires IsListed(order, loads, unloads) && SameJourney(stops, RowsOf(order))
    ensures Serves(stops, Load, loads) && Serves(stops, Unload, unloads)
  {
    RowsServe(order, stops, loads, unloads, Load);
    RowsServe(order, stops, loads, unloads, Unload);
  }

  lemma RowsServe(order: PlannedOrder, stops: seq<Stop>, loads: seq<string>, unloads: seq<string>, kind: Kind)
    requires IsListed(order, loads, unloads) && SameJourney(stops, RowsOf(order))
    ensures Serves(stops, kind, if kind == Load then loads else unloads)
  {
    var names := if kind == Load then loads else unloads;
    forall i | 0 <= i < |stops| && stops[i].kind == kind
      ensures 1 <= stops[i].shipmentNo <= |names| && stops[i].warehouse == names[stops[i].shipmentNo - 1]
      ensures forall j :: 0 <= j < i && stops[j].kind == kind ==> stops[j].shipmentNo != stops[i].shipmentNo
    {
      RowIsAPoint(order, stops, loads, unloads, i);
    }
    forall n: nat | 1 <= n <= |names| ensures IsServed(stops, kind, n) {
      PointIsServed(order, stops, loads, unloads, StopRef(kind, n - 1));
    }
  }

  lemma PointIsServed(order: PlannedOrder, stops: seq<Stop>, loads: seq<string>, unloads: seq<string>, r: StopRef)
    requires IsListed(order, loads, unloads) && SameJourney(stops, RowsOf(order)) && IsPoint(r, |loads|, |unloads|)
    ensures IsServed(stops, r.kind, r.index + 1)
  {
    ListsWin(order, loads, unloads);
    EveryPointHasItsRow(RowsOf(order), PlanOf(order), loads, unloads, r);
    var i :| 0 <= i < |RowsOf(order)| &&
             RowsOf(order)[i] == Row(i + 1, r.index + 1, r.kind, Warehouse(r, loads, unloads));
    assert Matches(stops[i], RowsOf(order)[i]);
  }

  lemma RowsAreThere(order: PlannedOrder, loads: seq<string>, unloads: seq<string>)
    requires IsListed(order, loads, unloads)
    ensures RowsOf(order) != []
  {
    ListsWin(order, loads, unloads);
    EveryPointHasItsRow(RowsOf(order), PlanOf(order), loads, unloads, StopRef(Load, 0));
  }

  lemma DefaultPoint(loads: nat, unloads: nat, i: nat)
    requires i < loads + unloads
    ensures DefaultOrder(loads, unloads)[i] == if i < loads then StopRef(Load, i) else StopRef(Unload, i - loads)
  {
  }

  lemma DefaultIsPlanned(order: PlannedOrder, loads: seq<string>, unloads: seq<string>)
    requires IsListed(order, loads, unloads) && order.detail.stopSequence.None?
    ensures var rows, plan := RowsOf(order), DefaultOrder(|loads|, |unloads|);
            |rows| == |plan| && forall i :: 0 <= i < |rows| ==> rows[i] == RowAt(plan, i, loads, unloads)
  {
    ListsWin(order, loads, unloads);
    RowsOfAPlan(RowsOf(order), DefaultOrder(|loads|, |unloads|), loads, unloads);
  }

  /** Unless the planner chose otherwise, every load comes first, in the order of its list, and then
      every unload in the order of its own. */
  lemma {:induction false} DefaultRows(order: PlannedOrder, loads: seq<string>, unloads: seq<string>, i: nat)
    requires IsListed(order, loads, unloads) && order.detail.stopSequence.None? && i < |loads| + |unloads|
    ensures i < |RowsOf(order)| && RowsOf(order)[i] == if i < |loads| then Row(i + 1, i + 1, Load, loads[i])
            else Row(i + 1, i - |loads| + 1, Unload, unloads[i - |loads|])
  {
    DefaultIsPlanned(order, loads, unloads);
    DefaultPoint(|loads|, |unloads|, i);
    assert RowsOf(order)[i] == RowAt(DefaultOrder(|loads|, |unloads|), i, loads, unloads);
  }

  lemma OnlyJourneyOfTwo(plan: seq<StopRef>)
    requires IsVisitPlan(plan, 1, 1)
    ensures plan == [StopRef(Load, 0), StopRef(Unload, 0)]
  {
    PermutationIff(plan, 1, 1);
    StartsWithLoad(plan, 1, 1);
  }

  lemma NoPointsNoChoice(plan: seq<StopRef>)
    requires IsVisitPlan(plan, 0, 0)
    ensures plan == []
  {
    PermutationIff(plan, 0, 0);
  }

  ghost predicate HasColumnsAlone(order: PlannedOrder, from: string, to: string) {
    && order.detail.loadingPoints.None? && order.detail.unloadingPoints.None?
    && order.origin == Some(from) && order.destination == Some(to) && from != "" && to != ""
  }

  lemma PairOfRows(rows: seq<Row>, plan: seq<StopRef>, from: string, to: string)
    requires PlannedRows(rows, plan, [from], [to])
    ensures rows == [Row(1, 1, Load, from), Row(2, 1, Unload, to)]
  {
    OnlyJourneyOfTwo(plan);
    RowsOfAPlan(rows, plan, [from], [to]);
    assert rows[0] == RowAt(plan, 0, [from], [to]) && rows[1] == RowAt(plan, 1, [from], [to]);
  }

  /** An order without lists is the journey between its two columns. */
  lemma {:induction false} ColumnsStandIn(order: PlannedOrder, from: string, to: string)
    requires HasColumnsAlone(order, from, to)
    ensures RowsOf(order) == [Row(1, 1, Load, from), Row(2, 1, Unload, to)]
  {
    assert LoadsOf(order) == [from] && UnloadsOf(order) == [to];
    OrderRowsArePlanned(order);
    PairOfRows(RowsOf(order), PlanOf(order), from, to);
  }

  /** The edge reads the lists alone: such an order accepts no choice. */
  lemma {:induction false} ColumnsAcceptNoChoice(order: PlannedOrder, from: string, to: string)
    requires HasColumnsAlone(order, from, to)
    ensures PassesEdge(order) <==> StoredSequence(order.detail.stopSequence) == []
  {
    var chosen := StoredSequence(order.detail.stopSequence);
    if PassesEdge(order) && chosen != [] { NoPointsNoChoice(chosen); }
  }

  // ---- Patches -------------------------------------------------------------------------------

  /** While no stop is visited, a patch that puts only a list of named loading points leaves load rows
      with exactly those warehouses and unload rows with those of the old list, exactly when the choice
      on the order still fits; otherwise the rows stay as they were. */
  lemma {:induction false} LoadingPatchIsServed(st: Store, items: seq<Item>, loads: seq<string>, unloads: seq<string>)
    requires forall i :: 0 <= i < |st.stops| ==>
               st.stops[i].arrivedAt.None? && st.stops[i].startedAt.None? && st.stops[i].finishedAt.None?
    requires Lists(Some(items), loads) && Lists(st.order.detail.unloadingPoints, unloads)
    requires loads != [] && unloads != [] && |loads| + |unloads| <= 200
    ensures var after := DetailPatched(st, Patch(Put(items), Keep, Keep));
            if PassesEdge(after.order) then Serves(after.stops, Load, loads) && Serves(after.stops, Unload, unloads)
            else after.stops == st.stops
    ensures StoredSequence(st.order.detail.stopSequence) == [] ==>
              PassesEdge(DetailPatched(st, Patch(Put(items), Keep, Keep)).order)
  {
    var stored := st.(order := Patched(st.order, Patch(Put(items), Keep, Keep)));
    assert !AnyVisited(st.stops);
    if PassesEdge(stored.order) {
      SyncIsIdempotent(stored);
      RowsAreThere(stored.order, loads, unloads);
      RowsServeTheLists(stored.order, Synced(stored).stops, loads, unloads);
    }
  }

  /** The same of a list of unloading points. */
  lemma {:induction false} UnloadingPatchIsServed(st: Store, items: seq<Item>, loads: seq<string>, unloads: seq<string>)
    requires forall i :: 0 <= i < |st.stops| ==>
               st.stops[i].arrivedAt.None? && st.stops[i].startedAt.None? && st.stops[i].finishedAt.None?
    requires Lists(Some(items), unloads) && Lists(st.order.detail.loadingPoints, loads)
    requires loads != [] && unloads != [] && |loads| + |unloads| <= 200
    ensures var after := DetailPatched(st, Patch(Keep, Put(items), Keep));
            if PassesEdge(after.order) then Serves(after.stops, Load, loads) && Serves(after.stops, Unload, unloads)
            else after.stops == st.stops
  {
    var stored := st.(order := Patched(st.order, Patch(Keep, Put(items), Keep)));
    assert !AnyVisited(st.stops);
    if PassesEdge(stored.order) {
      SyncIsIdempotent(stored);
      RowsAreThere(stored.order, loads, unloads);
      RowsServeTheLists(stored.order, Synced(stored).stops, loads, unloads);
    }
  }

  /** From the first arrival, start or finish on, no writes and reports change which rows there are. */
  lemma {:induction false} BegunJourneyIsFrozen(st: Store, events: seq<StopStore.Event>, k: nat, i: nat)
    requires k < |st.stops| && i < |st.stops|
    requires st.stops[k].arrivedAt.Some? || st.stops[k].startedAt.Some? || st.stops[k].finishedAt.Some?
    ensures var after := StopStore.Run(st, events).stops;
            && |after| == |st.stops|
            && after[i] == st.stops[i].(
                 arrivedAt := after[i].arrivedAt, startedAt := after[i].startedAt, finishedAt := after[i].finishedAt,
                 cargoCheckedAt := after[i].cargoCheckedAt, podId := after[i].podId)
            && (st.stops[i].arrivedAt.Some? ==> after[i].arrivedAt.Some?)
            && (st.stops[i].startedAt.Some? ==> after[i].startedAt.Some?)
            && (st.stops[i].finishedAt.Some? ==> after[i].finishedAt.Some?)
  {
    assert IsVisited(st.stops[k]);
    VisitedJourneyIsFrozen(st, events);
    assert SameVisit(st.stops[i], StopStore.Run(st, events).stops[i]);
  }

  /** A patch is stored before the rows are rebuilt and its refusal is dropped: it leaves order and rows
      apart exactly when the rows do not describe the new points already and the choice on the order no
      longer fits them or the journey has begun. */
  lemma {:induction false} PatchLeavesStepIff(st: Store, p: Patch)
    requires !(p.loadingPoints.Keep? && p.unloadingPoints.Keep?) && RowsOf(DetailPatched(st, p).order) != []
    ensures var after := DetailPatched(st, p);
            InStep(after) <==> SameJourney(st.stops, RowsOf(after.order))
                               || (PassesEdge(after.order) && !AnyVisited(st.stops))
  {
    var stored := st.(order := Patched(st.order, p));
    if SyncSucceeds(stored) { SyncIsIdempotent(stored); }
  }
}
