/** CreateInvoice by any number of callers at once. It checks, and later inserts what it made; nothing
    holds the two together. */
module BillingRaces {
  import opened Status
  import opened Billing

  type CallerId = nat

  /** A caller that has passed every check, and when. */
  datatype Passed = Passed(invoice: Invoice, at: nat)

  /** The invoices, when each was inserted, the callers between check and insert, and the steps so far. */
  datatype Office = Office(
    invoices: Invoices, insertedAt: map<InvoiceId, nat>, callers: map<CallerId, Passed>, clock: nat)

  /** The order table is read afresh by each check. */
  datatype Step =
    | Check(caller: CallerId, bill: Bill, rows: seq<OrderId>, orders: map<OrderId, Order>)
    | Insert(caller: CallerId, id: InvoiceId)
    | Advance(invoice: InvoiceId, to: InvoiceStatus, company: CompanyId, admin: bool)
    | GiveUp(caller: CallerId)

  ghost predicate Passes(o: Office, s: Step)
    requires s.Check?
  {
    Answers(s.rows, s.bill.ids, s.orders) && Billable(o.invoices, s.orders, s.bill)
  }

  predicate Inserts(o: Office, s: Step) { s.Insert? && s.caller in o.callers && s.id !in o.invoices }

  ghost function Do(o: Office, s: Step): Office {
    var next := o.(clock := o.clock + 1);
    match s
    case Check(c, b, rows, orders) =>
      if Passes(o, s) then next.(callers := o.callers[c := Passed(Made(b, rows, orders), o.clock)])
      else next.(callers := o.callers - {c})
    case Insert(c, id) =>
      if Inserts(o, s) then
        Office(o.invoices[id := o.callers[c].invoice], o.insertedAt[id := o.clock], o.callers - {c}, o.clock + 1)
      else next
    case Advance(i, to, company, admin) =>
      if MoveRefusal(o.invoices, i, to, company, admin).None? then next.(invoices := Moved(o.invoices, i, to)) else next
    case GiveUp(c) => next.(callers := o.callers - {c})
  }

  ghost function Run(o: Office, steps: seq<Step>): Office
    decreases |steps|
  {
    if steps == [] then o else Run(Do(o, steps[0]), steps[1..])
  }

  const EMPTY := Office(map[], map[], map[], 0)

  // ---- What holds of the office --------------------------------------------------------------

  /** An order of the caller's invoice is on a live invoice only if that one came in after the check. */
  ghost predicate CheckedBefore(o: Office, p: Passed) {
    && EachOrderOneLine(p.invoice) && Adds(p.invoice) && p.invoice.status != Cancelled
    && forall i, ord :: OnLive(o.invoices, i, ord) && Bills(p.invoice, ord) ==>
         i in o.insertedAt && p.at < o.insertedAt[i]
  }

  ghost predicate Kept(o: Office) {
    && o.insertedAt.Keys == o.invoices.Keys
    && (forall c :: c in o.callers ==> CheckedBefore(o, o.callers[c]) && o.callers[c].at < o.clock)
    && (forall i :: i in o.insertedAt ==> o.insertedAt[i] < o.clock)
    && (forall i :: i in o.invoices ==> EachOrderOneLine(o.invoices[i]) && Adds(o.invoices[i]))
  }

  lemma CheckKeeps(o: Office, s: Step)
    requires Kept(o) && s.Check?
    ensures Kept(Do(o, s))
  {
    if Passes(o, s) { MadeIsNew(o.invoices, s.bill, s.rows, s.orders); }
  }

  lemma InsertKeeps(o: Office, s: Step)
    requires Kept(o) && Inserts(o, s)
    ensures Kept(Do(o, s))
  {
    var next := Do(o, s);
    forall c | c in next.callers ensures CheckedBefore(next, next.callers[c]) {
      forall i, ord | OnLive(next.invoices, i, ord) && Bills(next.callers[c].invoice, ord)
        ensures i in next.insertedAt && next.callers[c].at < next.insertedAt[i]
      {
        if i != s.id { assert OnLive(o.invoices, i, ord); }
      }
    }
  }

  lemma MoveRevivesNothing(invoices: Invoices, i: InvoiceId, to: InvoiceStatus)
    requires i in invoices && InvoiceEdge(invoices[i].status, to)
    ensures forall j, ord :: OnLive(Moved(invoices, i, to), j, ord) ==> OnLive(invoices, j, ord)
  {
  }

  lemma AdvanceKeeps(o: Office, s: Step)
    requires Kept(o) && s.Advance? && MoveRefusal(o.invoices, s.invoice, s.to, s.company, s.admin).None?
    ensures Kept(Do(o, s))
  {
    MoveRevivesNothing(o.invoices, s.invoice, s.to);
    var next := Do(o, s);
    forall c | c in next.callers ensures CheckedBefore(next, next.callers[c]) { assert CheckedBefore(o, o.callers[c]); }
  }

  lemma StepKeeps(o: Office, s: Step)
    requires Kept(o)
    ensures Kept(Do(o, s))
  {
    match s
    case Check(_, _, _, _) => CheckKeeps(o, s);
    case Insert(_, _) => if Inserts(o, s) { InsertKeeps(o, s); }
    case Advance(i, to, company, admin) =>
      if MoveRefusal(o.invoices, i, to, company, admin).None? {
        AdvanceKeeps(o, s);
      }
    case GiveUp(_) =>
  }

  // ---- Exactly when an order is billed twice -------------------------------------------------

  /** The insert is of a call whose span, from its check on, contains the insert of another call with
      an order in common, whose invoice has not been cancelled since. */
  ghost predicate Clashes(o: Office, s: Step) {
    && Inserts(o, s)
    && exists i, ord :: i in o.insertedAt && o.callers[s.caller].at < o.insertedAt[i]
                        && OnLive(o.invoices, i, ord) && Bills(o.callers[s.caller].invoice, ord)
  }

  /** The spans overlap and the two list a common order, cancelled or not. */
  ghost predicate Overlaps(o: Office, s: Step) {
    && Inserts(o, s)
    && exists i, ord :: i in o.insertedAt && i in o.invoices && o.callers[s.caller].at < o.insertedAt[i]
                        && Bills(o.invoices[i], ord) && Bills(o.callers[s.caller].invoice, ord)
  }

  ghost predicate NoClash(o: Office, steps: seq<Step>)
    decreases |steps|
  {
    steps != [] ==> !Clashes(o, steps[0]) && NoClash(Do(o, steps[0]), steps[1..])
  }

  ghost predicate NoOverlap(o: Office, steps: seq<Step>)
    decreases |steps|
  {
    steps != [] ==> !Overlaps(o, steps[0]) && NoOverlap(Do(o, steps[0]), steps[1..])
  }

  ghost predicate AlwaysBilledOnce(o: Office, steps: seq<Step>)
    decreases |steps|
  {
    BilledOnce(o.invoices) && (steps != [] ==> AlwaysBilledOnce(Do(o, steps[0]), steps[1..]))
  }

  lemma InsertBillsOnceIff(o: Office, s: Step)
    requires Kept(o) && BilledOnce(o.invoices) && Inserts(o, s)
    ensures BilledOnce(Do(o, s).invoices) <==> !Clashes(o, s)
  {
    var inv := o.callers[s.caller].invoice;
    var after := Do(o, s).invoices;
    assert CheckedBefore(o, o.callers[s.caller]);
    if i, ord :| OnLive(o.invoices, i, ord) && Bills(inv, ord) {
      assert OnLive(after, i, ord) && OnLive(after, s.id, ord);
    } else {
      NewInvoiceKeepsSound(o.invoices, s.id, inv);
    }
  }

  lemma StepBillsOnceIff(o: Office, s: Step)
    requires Kept(o) && BilledOnce(o.invoices)
    ensures BilledOnce(Do(o, s).invoices) <==> !Clashes(o, s)
  {
    if Inserts(o, s) {
      InsertBillsOnceIff(o, s);
    } else if s.Advance? && MoveRefusal(o.invoices, s.invoice, s.to, s.company, s.admin).None? {
      MoveKeepsSound(o.invoices, s.invoice, s.to);
    }
  }

  /** In every interleaving of checks, inserts and moves of any number of callers, each order is on at
      most one live invoice throughout exactly when no call's insert meets, still not cancelled, the
      invoice that another call with a common order inserted between this call's check and insert. */
  lemma {:induction false} AlwaysBilledOnceIff(o: Office, steps: seq<Step>)
    requires Kept(o) && BilledOnce(o.invoices)
    ensures AlwaysBilledOnce(o, steps) <==> NoClash(o, steps)
    decreases |steps|
  {
    if steps != [] {
      var next := Do(o, steps[0]);
      StepKeeps(o, steps[0]);
      StepBillsOnceIff(o, steps[0]);
      if BilledOnce(next.invoices) {
        AlwaysBilledOnceIff(next, steps[1..]);
      } else {
        assert !AlwaysBilledOnce(next, steps[1..]);
      }
    }
  }

  // ---- Runs without cancellations ------------------------------------------------------------

  predicate NeverCancels(steps: seq<Step>) {
    forall k :: 0 <= k < |steps| && steps[k].Advance? ==> steps[k].to != Cancelled
  }

  ghost predicate NoneCancelled(o: Office) { forall i :: i in o.invoices ==> o.invoices[i].status != Cancelled }

  lemma StepCancelsNone(o: Office, s: Step)
    requires Kept(o) && NoneCancelled(o) && (s.Advance? ==> s.to != Cancelled)
    ensures NoneCancelled(Do(o, s))
    ensures forall i, ord :: OnLive(o.invoices, i, ord) ==> OnLive(Do(o, s).invoices, i, ord)
    ensures Clashes(o, s) <==> Overlaps(o, s)
  {
    if Inserts(o, s) { assert CheckedBefore(o, o.callers[s.caller]); }
    forall i, ord ensures OnLive(o.invoices, i, ord) <==> i in o.invoices && Bills(o.invoices[i], ord) {}
  }

  lemma {:induction false} TwiceStaysTwice(o: Office, steps: seq<Step>)
    requires Kept(o) && NoneCancelled(o) && NeverCancels(steps) && !BilledOnce(o.invoices)
    ensures !BilledOnce(Run(o, steps).invoices)
    decreases |steps|
  {
    if steps != [] {
      var next := Do(o, steps[0]);
      StepKeeps(o, steps[0]);
      StepCancelsNone(o, steps[0]);
      var i, j, ord :| OnLive(o.invoices, i, ord) && OnLive(o.invoices, j, ord) && i != j;
      assert OnLive(next.invoices, i, ord) && OnLive(next.invoices, j, ord);
      TwiceStaysTwice(next, steps[1..]);
    }
  }

  /** When nothing is cancelled: no order ends on two invoices exactly when no two calls that insert
      list a common order and overlap, one's insert falling between the other's check and insert. */
  lemma {:induction false} BilledOnceIffNoOverlap(o: Office, steps: seq<Step>)
    requires Kept(o) && NoneCancelled(o) && NeverCancels(steps) && BilledOnce(o.invoices)
    ensures BilledOnce(Run(o, steps).invoices) <==> NoOverlap(o, steps)
    decreases |steps|
  {
    if steps != [] {
      var next := Do(o, steps[0]);
      StepKeeps(o, steps[0]);
      StepCancelsNone(o, steps[0]);
      StepBillsOnceIff(o, steps[0]);
      if BilledOnce(next.invoices) {
        BilledOnceIffNoOverlap(next, steps[1..]);
      } else {
        TwiceStaysTwice(next, steps[1..]);
      }
    }
  }

  // ---- A run that bills an order twice -------------------------------------------------------

  const JOB := Order(OrderCompleted, 1, Some(2), Some(100.0))
  const REQUEST := Bill(2, 1, [7], 0.11, 0.02, 0.0)

  lemma FourSteps(o: Office, s: Step, t: Step, u: Step, v: Step)
    ensures Run(o, [s, t, u, v]) == Do(Do(Do(Do(o, s), t), u), v)
  {
    var a, b, c := Do(o, s), Do(Do(o, s), t), Do(Do(Do(o, s), t), u);
    assert [s, t, u, v][1..] == [t, u, v] && [t, u, v][1..] == [u, v] && [u, v][1..] == [v] && [v][1..] == [];
    assert Run(c, [v]) == Do(c, v);
    assert Run(b, [u, v]) == Run(c, [v]);
    assert Run(a, [t, u, v]) == Run(b, [u, v]);
  }

  /** Two callers pass the check for the same order before either inserts. */
  lemma BothPass() returns (inv: Invoice)
    ensures var orders := map[7 := JOB];
            var both := Do(Do(EMPTY, Check(0, REQUEST, [7], orders)), Check(1, REQUEST, [7], orders));
            both == Office(map[], map[], map[0 := Passed(inv, 0), 1 := Passed(inv, 1)], 2)
    ensures Bills(inv, 7) && inv.status != Cancelled
  {
    var orders := map[7 := JOB];
    inv := Made(REQUEST, [7], orders);
    assert Passes(EMPTY, Check(0, REQUEST, [7], orders));
    var a := Do(EMPTY, Check(0, REQUEST, [7], orders));
    assert a == Office(map[], map[], map[0 := Passed(inv, 0)], 1) && Passes(a, Check(1, REQUEST, [7], orders));
    assert inv.lines[0].order == 7;
  }

  /** Check, check, insert, insert: order 7 is on two live invoices. */
  lemma TwoCallersBillTwice() returns (steps: seq<Step>)
    ensures NeverCancels(steps) && !BilledOnce(Run(EMPTY, steps).invoices)
  {
    var orders := map[7 := JOB];
    var inv := BothPass();
    steps := [Check(0, REQUEST, [7], orders), Check(1, REQUEST, [7], orders), Insert(0, 10), Insert(1, 11)];
    FourSteps(EMPTY, steps[0], steps[1], steps[2], steps[3]);
    var invoices := Run(EMPTY, steps).invoices;
    assert invoices == map[10 := inv, 11 := inv];
    assert OnLive(invoices, 10, 7) && OnLive(invoices, 11, 7);
  }
}
