/** A planned journey, run: what the planner's rows guarantee the journey that is driven on them. */
module PlannedJourney {
  import opened Status
  import opened Stops
  import opened Journey
  import opened JourneySafety
  import opened JourneyResults
  import opened JourneyOrder
  import Planner

  /** The stored stops are these rows, in their order, not visited yet. */
  ghost predicate Stores(stops: seq<Stop>, rows: seq<Planner.Row>) {
    && |stops| == |rows|
    && forall i :: 0 <= i < |rows| ==>
         stops[i].seqNo == rows[i].seqNo && stops[i].kind == rows[i].kind
         && stops[i].shipmentNo == rows[i].shipmentNo && stops[i].warehouse == rows[i].warehouse
  }

  /** On every journey planned from point lists with no more unloading than loading points, whatever
      visit order was chosen, the visited stops form a prefix of it in every clean run. */
  lemma {:induction false} PlannedVisitsAreAPrefix(w: World, plan: seq<Planner.StopRef>, rows: seq<Planner.Row>,
      loads: seq<string>, unloads: seq<string>, events: seq<Event>)
    requires Planner.PlannedRows(rows, plan, loads, unloads) && loads != [] && |unloads| <= |loads|
    requires Fresh(w) && Stores(w.stops, rows) && CleanRun(w, events)
    ensures Prefix(Run(w, events).stops)
  {
    Planner.RowsOfAPlan(rows, plan, loads, unloads);
    Planner.StartsWithLoad(plan, |loads|, |unloads|);
    assert w.stops[0].kind == rows[0].kind == Load;
    VisitedIsAPrefix(w, events);
  }

  /** Whatever visit order was chosen, and however many points there are of either kind: a shipment's
      unloading point is visited only after its loading point. */
  lemma {:induction false} GoodsAreCollectedBeforeDelivery(w: World, plan: seq<Planner.StopRef>,
      rows: seq<Planner.Row>, loads: seq<string>, unloads: seq<string>, events: seq<Event>, i: nat, j: nat)
    requires Planner.PlannedRows(rows, plan, loads, unloads)
    requires |loads| <= Planner.MAX_STOPS && |unloads| <= Planner.MAX_STOPS
    requires Fresh(w) && Stores(w.stops, rows) && CleanRun(w, events)
    requires i < |rows| && j < |rows| && rows[i].kind == Load && rows[j].kind == Unload
             && rows[i].shipmentNo == rows[j].shipmentNo
    ensures var stops := Run(w, events).stops;
            |stops| == |rows| && (stops[j].Visited() ==> stops[i].Visited())
  {
    Planner.RowsReadBack(rows, plan, loads, unloads, i);
    UnloadingComesAfterItsLoads(w, events, i, j);
  }

  /** The same of an order as it is stored: if its points make a journey at all, with a load and an
      unload to visit, no blank column can have stood in for a list. */
  lemma {:induction false} OrderVisitsAreAPrefix(w: World, order: Planner.PlannedOrder, events: seq<Event>)
    requires |Planner.UnloadsOf(order)| <= |Planner.LoadsOf(order)|
    requires Fresh(w) && Stores(w.stops, Planner.RowsOf(order)) && CleanRun(w, events)
    ensures Prefix(Run(w, events).stops)
  {
    StoredRowsArePlanned(w, order);
    PlannedVisitsAreAPrefix(w, Planner.PlanOf(order), Planner.RowsOf(order), Planner.LoadsOf(order),
                            Planner.UnloadsOf(order), events);
  }

  lemma StoredRowsArePlanned(w: World, order: Planner.PlannedOrder)
    requires Shape(w) && Stores(w.stops, Planner.RowsOf(order))
    ensures Planner.LoadsOf(order) != [] && Planner.UnloadsOf(order) != []
    ensures Planner.PlannedRows(Planner.RowsOf(order), Planner.PlanOf(order), Planner.LoadsOf(order),
            Planner.UnloadsOf(order))
  {
    var loads, unloads, plan := Planner.LoadsOf(order), Planner.UnloadsOf(order), Planner.PlanOf(order);
    var l :| 0 <= l < |w.stops| && w.stops[l].kind == Load;
    var u :| 0 <= u < |w.stops| && w.stops[u].kind == Unload;
    assert Planner.RowsOf(order)[l].kind == Load && Planner.RowsOf(order)[u].kind == Unload;
    Planner.RowsAreNamed(plan, |plan|, loads, unloads, l);
    Planner.RowsAreNamed(plan, |plan|, loads, unloads, u);
    Planner.OrderRowsArePlanned(order);
  }
}
