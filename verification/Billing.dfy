/** Billing completed orders: what may be billed, the invoice's own state machine, and that no order
    is billed twice. */
module Billing {
  import opened Status
  import opened Rounding

  type OrderId = nat
  type InvoiceId = nat
  type CompanyId = nat

  datatype Order = Order(status: OrderStatus, shipper: CompanyId, transporter: Option<CompanyId>, price: Option<real>)

  datatype InvoiceStatus = Draft | Issued | SubmittedToShipper | Verified | Paid | Cancelled

  datatype Line = Line(order: OrderId, amount: real)

  datatype Invoice = Invoice(
    shipper: CompanyId, transporter: CompanyId, status: InvoiceStatus, lines: seq<Line>,
    subtotal: real, totals: Totals)

  type Invoices = map<InvoiceId, Invoice>

  datatype Failure = NotFound | Forbidden | Invalid | BadTransition | Conflict

  // ---- What holds of the invoices ------------------------------------------------------------

  function Sum(lines: seq<Line>): real {
    if lines == [] then 0.0 else Sum(lines[..|lines| - 1]) + lines[|lines| - 1].amount
  }

  predicate Bills(inv: Invoice, o: OrderId) { exists k :: 0 <= k < |inv.lines| && inv.lines[k].order == o }

  /** On a bill that is not cancelled. */
  predicate OnLive(invoices: Invoices, i: InvoiceId, o: OrderId) {
    i in invoices && invoices[i].status != Cancelled && Bills(invoices[i], o)
  }

  ghost predicate BilledOnce(invoices: Invoices) {
    forall i, j, o :: OnLive(invoices, i, o) && OnLive(invoices, j, o) ==> i == j
  }

  ghost predicate EachOrderOneLine(inv: Invoice) {
    forall k, l :: 0 <= k < l < |inv.lines| ==> inv.lines[k].order != inv.lines[l].order
  }

  ghost predicate Adds(inv: Invoice) { inv.subtotal == Sum(inv.lines) }

  ghost predicate Sound(invoices: Invoices) {
    BilledOnce(invoices) && forall i :: i in invoices ==> EachOrderOneLine(invoices[i]) && Adds(invoices[i])
  }

  // ---- Billing -------------------------------------------------------------------------------

  /** What the caller asks for, and what the order table answers: the rows of the ids that exist,
      each once, in any order. */
  datatype Bill = Bill(
    company: CompanyId, shipper: CompanyId, ids: seq<OrderId>, ppn: real, pph23: real, adjustment: real)

  ghost predicate Answers(rows: seq<OrderId>, ids: seq<OrderId>, orders: map<OrderId, Order>) {
    && (forall k, l :: 0 <= k < l < |rows| ==> rows[k] != rows[l])
    && (forall o :: o in rows <==> o in ids && o in orders)
  }

  predicate MayBill(order: Order, b: Bill) {
    && (order.status == OrderCompleted || order.status == OrderDelivered)
    && order.transporter == Some(b.company) && order.shipper == b.shipper
  }

  /** Some order of the list is already on a bill that is not cancelled. */
  predicate AlreadyBilled(invoices: Invoices, ids: seq<OrderId>) {
    exists i, k :: i in invoices && 0 <= k < |ids| && OnLive(invoices, i, ids[k])
  }

  function Amount(order: Order): real { if order.price.Some? then order.price.value else 0.0 }

  function Lines(rows: seq<OrderId>, orders: map<OrderId, Order>): (lines: seq<Line>)
    requires forall k :: 0 <= k < |rows| ==> rows[k] in orders
    ensures |lines| == |rows| && forall k :: 0 <= k < |rows| ==> lines[k] == Line(rows[k], Amount(orders[rows[k]]))
  {
    if rows == [] then []
    else Lines(rows[..|rows| - 1], orders) + [Line(rows[|rows| - 1], Amount(orders[rows[|rows| - 1]]))]
  }

  function Made(b: Bill, rows: seq<OrderId>, orders: map<OrderId, Order>): Invoice
    requires forall k :: 0 <= k < |rows| ==> rows[k] in orders
  {
    var lines := Lines(rows, orders);
    Invoice(b.shipper, b.company, Draft, lines, Sum(lines), Recalculated(Sum(lines), b.ppn, b.pph23, b.adjustment))
  }

  /** The request can be met: distinct orders that all exist, may be billed, and are not billed yet. */
  ghost predicate Billable(invoices: Invoices, orders: map<OrderId, Order>, b: Bill) {
    && b.ids != []
    && (forall k, l :: 0 <= k < l < |b.ids| ==> b.ids[k] != b.ids[l])
    && (forall k :: 0 <= k < |b.ids| ==> b.ids[k] in orders && MayBill(orders[b.ids[k]], b))
    && !AlreadyBilled(invoices, b.ids)
  }

  function SetOf(ids: seq<OrderId>): set<OrderId> { set o | o in ids }

  lemma {:induction false} DistinctSize(ids: seq<OrderId>)
    ensures |SetOf(ids)| <= |ids|
    ensures |SetOf(ids)| == |ids| <==> forall k, l :: 0 <= k < l < |ids| ==> ids[k] != ids[l]
  {
    if ids == [] {
      assert SetOf(ids) == {};
    } else {
      var rest, last := ids[..|ids| - 1], ids[|ids| - 1];
      DistinctSize(rest);
      assert SetOf(ids) == SetOf(rest) + {last};
      assert last in SetOf(rest) <==> last in rest;
    }
  }

  lemma SubsetSize(a: set<OrderId>, b: set<OrderId>)
    requires a <= b
    ensures |a| <= |b| && (|a| == |b| <==> a == b)
  {
    assert |b - a| == |b| - |a|;
    if |a| == |b| { assert b - a == {}; }
  }

  /** As many rows as ids means: no id twice, and none that is not an order. */
  lemma AsManyRowsAsIds(rows: seq<OrderId>, ids: seq<OrderId>, orders: map<OrderId, Order>)
    requires Answers(rows, ids, orders)
    ensures |rows| == |ids| <==>
              (forall k, l :: 0 <= k < l < |ids| ==> ids[k] != ids[l])
                  && (forall k :: 0 <= k < |ids| ==> ids[k] in orders)
  {
    DistinctSize(rows);
    DistinctSize(ids);
    assert SetOf(rows) <= SetOf(ids);
    SubsetSize(SetOf(rows), SetOf(ids));
    assert SetOf(rows) == SetOf(ids) <==> forall k :: 0 <= k < |ids| ==> ids[k] in orders by {
      if forall k :: 0 <= k < |ids| ==> ids[k] in orders { assert forall o :: o in ids ==> o in rows; }
      if SetOf(rows) == SetOf(ids) {
        forall k | 0 <= k < |ids| ensures ids[k] in orders { assert ids[k] in SetOf(rows); }
      }
    }
  }

  /** Another invoice for orders not on a live one leaves every order on at most one. */
  lemma NewInvoiceKeepsSound(invoices: Invoices, id: InvoiceId, inv: Invoice)
    requires Sound(invoices) && id !in invoices && EachOrderOneLine(inv) && Adds(inv)
    requires forall i, o :: OnLive(invoices, i, o) ==> !Bills(inv, o)
    ensures Sound(invoices[id := inv])
  {
    var after := invoices[id := inv];
    forall i, j, o | OnLive(after, i, o) && OnLive(after, j, o) ensures i == j {
      assert i != id ==> OnLive(invoices, i, o);
      assert j != id ==> OnLive(invoices, j, o);
    }
  }

  lemma MadeIsNew(invoices: Invoices, b: Bill, rows: seq<OrderId>, orders: map<OrderId, Order>)
    requires Answers(rows, b.ids, orders) && !AlreadyBilled(invoices, b.ids)
    ensures var inv := Made(b, rows, orders);
            EachOrderOneLine(inv) && Adds(inv) && forall i, o :: OnLive(invoices, i, o) ==> !Bills(inv, o)
  {
  }

  // ---- What an invoice charges ---------------------------------------------------------------

  /** The prices of these orders together; an order without a price counts for nothing. */
  function PriceOfAll(ids: seq<OrderId>, orders: map<OrderId, Order>): real
    requires forall k :: 0 <= k < |ids| ==> ids[k] in orders
  {
    if ids == [] then 0.0
    else
      var price := orders[ids[|ids| - 1]].price;
      PriceOfAll(ids[..|ids| - 1], orders) + if price.Some? then price.value else 0.0
  }

  /** A draft between the parties, with one line an order asked for, which carries the order's own price
      or nothing when it has none, and the sum of those prices as its subtotal. */
  ghost predicate ChargesPrices(inv: Invoice, b: Bill, orders: map<OrderId, Order>)
    requires forall k :: 0 <= k < |b.ids| ==> b.ids[k] in orders
  {
    && inv.status == Draft && inv.shipper == b.shipper && inv.transporter == b.company
    && (forall k :: 0 <= k < |inv.lines| ==>
          && inv.lines[k].order in b.ids
          && inv.lines[k].amount == var price := orders[inv.lines[k].order].price; if price.Some? then price.value
               else 0.0)
    && (forall o :: o in b.ids ==> Bills(inv, o))
    && |inv.lines| == |b.ids|
    && inv.subtotal == PriceOfAll(b.ids, orders)
  }

  lemma {:induction false} TakeOneOut(ids: seq<OrderId>, k: nat, orders: map<OrderId, Order>)
    requires k < |ids| && forall l :: 0 <= l < |ids| ==> ids[l] in orders
    ensures var price := orders[ids[k]].price;
            PriceOfAll(ids, orders)
            == PriceOfAll(ids[..k] + ids[k + 1..], orders) + if price.Some? then price.value else 0.0
  {
    var last := |ids| - 1;
    if k == last {
      assert ids[..k] + ids[k + 1..] == ids[..last];
    } else {
      TakeOneOut(ids[..last], k, orders);
      var rest := ids[..k] + ids[k + 1..];
      assert rest[..|rest| - 1] == ids[..last][..k] + ids[..last][k + 1..] && rest[|rest| - 1] == ids[last];
    }
  }

  /** In whatever order the rows come, they have the same prices. */
  lemma {:induction false} SameOrdersSamePrice(rows: seq<OrderId>, ids: seq<OrderId>, orders: map<OrderId, Order>)
    requires forall k, l :: 0 <= k < l < |rows| ==> rows[k] != rows[l]
    requires forall k, l :: 0 <= k < l < |ids| ==> ids[k] != ids[l]
    requires forall o :: (o in rows <==> o in ids) && (o in ids ==> o in orders)
    ensures PriceOfAll(rows, orders) == PriceOfAll(ids, orders)
    decreases |rows|
  {
    DistinctSize(rows);
    DistinctSize(ids);
    assert SetOf(rows) == SetOf(ids);
    if rows != [] {
      var before, last := rows[..|rows| - 1], rows[|rows| - 1];
      assert last in rows;
      var k :| 0 <= k < |ids| && ids[k] == last;
      var rest := ids[..k] + ids[k + 1..];
      forall o ensures o in before <==> o in rest {
        assert o in rows <==> o in before || o == last;
        assert o in ids <==> o in rest || o == last;
        assert last !in before && last !in rest;
      }
      SameOrdersSamePrice(before, rest, orders);
      TakeOneOut(ids, k, orders);
    }
  }

  lemma {:induction false} LinesSumToPrices(rows: seq<OrderId>, orders: map<OrderId, Order>)
    requires forall k :: 0 <= k < |rows| ==> rows[k] in orders
    ensures Sum(Lines(rows, orders)) == PriceOfAll(rows, orders)
  {
    if rows != [] {
      var before := rows[..|rows| - 1];
      LinesSumToPrices(before, orders);
      assert Lines(rows, orders)[..|rows| - 1] == Lines(before, orders);
    }
  }

  lemma {:induction false} MadeChargesPrices(invoices: Invoices, orders: map<OrderId, Order>, b: Bill,
      rows: seq<OrderId>)
    requires Answers(rows, b.ids, orders) && Billable(invoices, orders, b)
    ensures ChargesPrices(Made(b, rows, orders), b, orders)
  {
    LinesSumToPrices(rows, orders);
    SameOrdersSamePrice(rows, b.ids, orders);
    AsManyRowsAsIds(rows, b.ids, orders);
    var inv := Made(b, rows, orders);
    forall o | o in b.ids ensures Bills(inv, o) {
      var k :| 0 <= k < |rows| && rows[k] == o;
      assert inv.lines[k].order == o;
    }
  }

  // ---- Moving an invoice ---------------------------------------------------------------------

  predicate InvoiceEdge(from: InvoiceStatus, to: InvoiceStatus) {
    match from
    case Draft => to == Issued || to == Cancelled
    case Issued => to == SubmittedToShipper || to == Cancelled
    case SubmittedToShipper => to == Verified || to == Issued || to == Cancelled
    case Verified => to == Paid || to == Cancelled
    case Paid => false
    case Cancelled => false
  }

  /** The biller issues and submits, the billed verify and pay; either may cancel. */
  predicate MayMove(inv: Invoice, to: InvoiceStatus, company: CompanyId, admin: bool) {
    if to == Issued || to == SubmittedToShipper then inv.transporter == company || admin
    else if to == Verified || to == Paid then inv.shipper == company || admin
    else true
  }

  /** An invoice's life, as pairs. */
  const LIFE: set<(InvoiceStatus, InvoiceStatus)> := {
    (Draft, Issued), (Issued, SubmittedToShipper), (SubmittedToShipper, Verified), (Verified, Paid),
    (SubmittedToShipper, Issued),
    (Draft, Cancelled), (Issued, Cancelled), (SubmittedToShipper, Cancelled), (Verified, Cancelled)}

  function MoveRefusal(invoices: Invoices, i: InvoiceId, to: InvoiceStatus, company: CompanyId,
      admin: bool): Option<Failure> {
    if i !in invoices || (invoices[i].shipper != company && invoices[i].transporter != company) then Some(NotFound)
    else if !InvoiceEdge(invoices[i].status, to) then Some(BadTransition)
    else if !MayMove(invoices[i], to, company, admin) then Some(Forbidden)
    else None
  }

  /** A move is made exactly when a party to the invoice asks for one its life has, and the right party:
      the biller alone issues and submits, the billed alone verifies and pays, either cancels. */
  lemma MoveIsMadeIff(invoices: Invoices, i: InvoiceId, to: InvoiceStatus, company: CompanyId, admin: bool)
    requires i in invoices
    ensures var inv := invoices[i];
            MoveRefusal(invoices, i, to, company, admin).None? <==>
              && (company == inv.shipper || company == inv.transporter)
              && (inv.status, to) in LIFE
              && (to in {Issued, SubmittedToShipper} ==> company == inv.transporter || admin)
              && (to in {Verified, Paid} ==> company == inv.shipper || admin)
  {
  }

  function Moved(invoices: Invoices, i: InvoiceId, to: InvoiceStatus): Invoices
    requires i in invoices
  {
    invoices[i := invoices[i].(status := to)]
  }

  /** A cancelled bill stays cancelled, so no move puts an order back on a second live one. */
  lemma MoveKeepsSound(invoices: Invoices, i: InvoiceId, to: InvoiceStatus)
    requires Sound(invoices) && i in invoices && InvoiceEdge(invoices[i].status, to)
    ensures Sound(Moved(invoices, i, to))
  {
    var after := Moved(invoices, i, to);
    forall j, o | OnLive(after, j, o) ensures OnLive(invoices, j, o) {}
  }

  // ---- The desk, updated in place ------------------------------------------------------------

  class BillingDesk {
    var orders: map<OrderId, Order>
    var invoices: Invoices

    ghost predicate Valid() reads this { Sound(invoices) }

    constructor (orders: map<OrderId, Order>)
      ensures Valid() && this.orders == orders && invoices == map[]
    {
      this.orders, invoices := orders, map[];
    }

    method CreateInvoice(b: Bill, rows: seq<OrderId>, id: InvoiceId) returns (failure: Option<Failure>)
      requires Valid() && Answers(rows, b.ids, orders) && id !in invoices
      modifies this`invoices
      ensures Valid()
      ensures failure.None? <==>
                && b.ids != [] && (forall k, l :: 0 <= k < l < |b.ids| ==> b.ids[k] != b.ids[l])
                && (forall k :: 0 <= k < |b.ids| ==>
                      && b.ids[k] in orders
                      && (orders[b.ids[k]].status == OrderCompleted || orders[b.ids[k]].status == OrderDelivered)
                      && orders[b.ids[k]].transporter == Some(b.company) && orders[b.ids[k]].shipper == b.shipper)
                && forall i, k :: i in old(invoices) && 0 <= k < |old(invoices)[i].lines| ==>
                     old(invoices)[i].status == Cancelled || old(invoices)[i].lines[k].order !in b.ids
      ensures failure.Some? ==> invoices == old(invoices)
      ensures failure.None? ==> id in invoices && invoices == old(invoices)[id := invoices[id]]
      ensures failure.None? ==> invoices[id] == Made(b, rows, orders) && ChargesPrices(invoices[id], b, orders)
    {
      AsManyRowsAsIds(rows, b.ids, orders);
      if |b.ids| == 0 || |rows| != |b.ids| { return Some(Invalid); }
      failure := CheckOrders(b, rows);
      if failure.Some? { return; }
      if AlreadyBilled(invoices, b.ids) { return Some(Invalid); }
      MadeChargesPrices(invoices, orders, b, rows);
      MadeIsNew(invoices, b, rows, orders);
      NewInvoiceKeepsSound(invoices, id, Made(b, rows, orders));
      var invoice := Build(b, rows);
      invoices := invoices[id := invoice];
      failure := None;
    }

    /** Every row may be billed to this shipper by this company. */
    method CheckOrders(b: Bill, rows: seq<OrderId>) returns (failure: Option<Failure>)
      requires Answers(rows, b.ids, orders) && forall k :: 0 <= k < |b.ids| ==> b.ids[k] in orders
      ensures failure.None? <==> forall k :: 0 <= k < |b.ids| ==> MayBill(orders[b.ids[k]], b)
    {
      for k := 0 to |rows|
        invariant forall l :: 0 <= l < k ==> MayBill(orders[rows[l]], b)
      {
        var order := orders[rows[k]];
        assert rows[k] in b.ids;
        if order.status != OrderCompleted && order.status != OrderDelivered { return Some(Invalid); }
        if order.transporter != Some(b.company) { return Some(Forbidden); }
        if order.shipper != b.shipper { return Some(Invalid); }
      }
      forall k | 0 <= k < |b.ids| ensures MayBill(orders[b.ids[k]], b) { assert b.ids[k] in rows; }
      failure := None;
    }

    /** One line an order, and the subtotal added up along the way. */
    method Build(b: Bill, rows: seq<OrderId>) returns (invoice: Invoice)
      requires forall k :: 0 <= k < |rows| ==> rows[k] in orders
      ensures invoice == Made(b, rows, orders)
    {
      var lines: seq<Line>, subtotal := [], 0.0;
      for k := 0 to |rows|
        invariant lines == Lines(rows[..k], orders) && subtotal == Sum(lines)
      {
        var amount := Amount(orders[rows[k]]);
        assert rows[..k + 1][..k] == rows[..k];
        assert (lines + [Line(rows[k], amount)])[..k] == lines;
        lines := lines + [Line(rows[k], amount)];
        subtotal := subtotal + amount;
      }
      assert rows[..|rows|] == rows;
      invoice := Invoice(b.shipper, b.company, Draft, lines, subtotal,
          Recalculated(subtotal, b.ppn, b.pph23, b.adjustment));
    }

    method TransitionInvoice(i: InvoiceId, to: InvoiceStatus, company: CompanyId, admin: bool)
        returns (failure: Option<Failure>)
      requires Valid()
      modifies this`invoices
      ensures Valid()
      ensures failure == MoveRefusal(old(invoices), i, to, company, admin)
      ensures invoices == if failure.None? then Moved(old(invoices), i, to) else old(invoices)
    {
      if i !in invoices || (invoices[i].shipper != company && invoices[i].transporter != company) {
        return Some(NotFound);
      }
      var inv := invoices[i];
      if !InvoiceEdge(inv.status, to) { return Some(BadTransition); }
      if (to == Issued || to == SubmittedToShipper) && inv.transporter != company && !admin { return Some(Forbidden); }
      if (to == Verified || to == Paid) && inv.shipper != company && !admin { return Some(Forbidden); }
      MoveKeepsSound(invoices, i, to);
      invoices := invoices[i := inv.(status := to)];
      failure := None;
    }
  }

  // ---- Runs ----------------------------------------------------------------------------------

  datatype Call =
    | Create(bill: Bill, rows: seq<OrderId>, id: InvoiceId)
    | Move(invoice: InvoiceId, to: InvoiceStatus, company: CompanyId, admin: bool)

  datatype Desk = Desk(orders: map<OrderId, Order>, invoices: Invoices)

  /** What a whole call leaves behind; orders come and go between calls as they like. */
  ghost function Apply(d: Desk, c: Call): Desk
    requires c.Create? ==> Answers(c.rows, c.bill.ids, d.orders) && c.id !in d.invoices
  {
    match c
    case Create(b, rows, id) =>
      if Billable(d.invoices, d.orders, b) then d.(invoices := d.invoices[id := Made(b, rows, d.orders)]) else d
    case Move(i, to, company, admin) =>
      if MoveRefusal(d.invoices, i, to, company, admin).None? then d.(invoices := Moved(d.invoices, i, to)) else d
  }

  lemma CallKeepsSound(d: Desk, c: Call)
    requires Sound(d.invoices)
    requires c.Create? ==> Answers(c.rows, c.bill.ids, d.orders) && c.id !in d.invoices
    ensures Sound(Apply(d, c).invoices)
  {
    match c
    case Create(b, rows, id) =>
      if Billable(d.invoices, d.orders, b) {
        MadeIsNew(d.invoices, b, rows, d.orders);
        NewInvoiceKeepsSound(d.invoices, id, Made(b, rows, d.orders));
      }
    case Move(i, to, company, admin) =>
      if MoveRefusal(d.invoices, i, to, company, admin).None? { MoveKeepsSound(d.invoices, i, to); }
  }

  /** One call after another, with the order table as it stood at each. */
  ghost predicate Follows(before: seq<Desk>, calls: seq<Call>) {
    && |before| == |calls| + 1
    && (forall k :: 0 <= k < |calls| && calls[k].Create? ==>
          Answers(calls[k].rows, calls[k].bill.ids, before[k].orders) && calls[k].id !in before[k].invoices)
    && forall k :: 0 <= k < |calls| ==> before[k + 1].invoices == Apply(before[k], calls[k]).invoices
  }

  /** Over any run of whole calls, an order is on at most one live invoice and once on it, and every
      subtotal is the sum of its lines. */
  lemma {:induction false} NoOrderIsBilledTwice(desks: seq<Desk>, calls: seq<Call>, n: nat)
    requires Follows(desks, calls) && desks[0].invoices == map[] && n <= |calls|
    ensures Sound(desks[n].invoices)
  {
    if n > 0 {
      NoOrderIsBilledTwice(desks, calls, n - 1);
      CallKeepsSound(desks[n - 1], calls[n - 1]);
    }
  }

  /** Over any run, the status an invoice has was given to it by a call of the right party: issued and
      submitted by its biller, verified and paid by who is billed, and paid only when verified. */
  lemma {:induction false} StatusHasItsMove(desks: seq<Desk>, calls: seq<Call>, n: nat, i: InvoiceId) returns (k: nat)
    requires Follows(desks, calls) && desks[0].invoices == map[] && n <= |calls|
    requires i in desks[n].invoices && desks[n].invoices[i].status != Draft
    ensures k < n && i in desks[k].invoices && calls[k].Move? && calls[k].invoice == i
    ensures var inv, move := desks[n].invoices[i], calls[k];
            && move.to == inv.status && (desks[k].invoices[i].status, inv.status) in LIFE
            && (inv.status in {Issued, SubmittedToShipper} && !move.admin ==> move.company == inv.transporter)
            && (inv.status in {Verified, Paid} && !move.admin ==> move.company == inv.shipper)
  {
    var before, call := desks[n - 1], calls[n - 1];
    if i in before.invoices && before.invoices[i] == desks[n].invoices[i] {
      k := StatusHasItsMove(desks, calls, n - 1, i);
    } else {
      k := n - 1;
      if call.Move? { MoveIsMadeIff(before.invoices, call.invoice, call.to, call.company, call.admin); }
    }
  }

  /** An invoice made of a request that can be met bills exactly the orders the request lists. */
  lemma MadeBillsItsOrders(invoices: Invoices, orders: map<OrderId, Order>, b: Bill, rows: seq<OrderId>, o: OrderId)
    requires Answers(rows, b.ids, orders) && Billable(invoices, orders, b)
    ensures Bills(Made(b, rows, orders), o) <==> o in b.ids
  {
  }

  // ---- How far the total can be off ----------------------------------------------------------

  /** Order prices are kept in whole cents. */
  ghost predicate PricedInCents(ids: seq<OrderId>, orders: map<OrderId, Order>) {
    forall o :: o in ids && o in orders && orders[o].price.Some? ==> TwoDecimals(orders[o].price.value)
  }

  lemma {:induction false} PricesAreInCents(ids: seq<OrderId>, orders: map<OrderId, Order>)
    requires PricedInCents(ids, orders) && forall k :: 0 <= k < |ids| ==> ids[k] in orders
    ensures TwoDecimals(PriceOfAll(ids, orders))
  {
    if ids != [] {
      var before, price := ids[..|ids| - 1], orders[ids[|ids| - 1]].price;
      PricesAreInCents(before, orders);
      TwoDecimalsAdd(PriceOfAll(before, orders), if price.Some? then price.value else 0.0);
    }
  }

  lemma TotalsComeOfPrices(invoices: Invoices, orders: map<OrderId, Order>, b: Bill, rows: seq<OrderId>)
    requires Answers(rows, b.ids, orders) && Billable(invoices, orders, b)
    ensures Made(b, rows, orders).totals == Recalculated(PriceOfAll(b.ids, orders), b.ppn, b.pph23, b.adjustment)
  {
    MadeChargesPrices(invoices, orders, b, rows);
  }

  /** Whatever the orders billed, however many, and whatever the percentages: the total of the invoice is
      within a cent and a half of what their prices, the taxes on them and the adjustment come to, and
      within a cent if the adjustment is in cents. */
  lemma {:induction false} InvoiceTotalIsClose(invoices: Invoices, orders: map<OrderId, Order>, b: Bill,
      rows: seq<OrderId>)
    requires Answers(rows, b.ids, orders) && Billable(invoices, orders, b) && PricedInCents(b.ids, orders)
    ensures TotalWithin(0.015, PriceOfAll(b.ids, orders), b.ppn, b.pph23, b.adjustment, Made(b, rows, orders).totals)
    ensures TwoDecimals(b.adjustment) ==>
              TotalWithin(0.01, PriceOfAll(b.ids, orders), b.ppn, b.pph23, b.adjustment, Made(b, rows, orders).totals)
  {
    TotalsComeOfPrices(invoices, orders, b, rows);
    PricesAreInCents(b.ids, orders);
    RecalculatedWithin(PriceOfAll(b.ids, orders), b.ppn, b.pph23, b.adjustment);
  }

  /** Each tax is its share of the prices to the nearest cent, and the total is what the invoice shows
      added up: the one tax on, the other off. */
  lemma {:induction false} TaxesAreShares(invoices: Invoices, orders: map<OrderId, Order>, b: Bill, rows: seq<OrderId>)
    requires Answers(rows, b.ids, orders) && Billable(invoices, orders, b)
    ensures NearestCents(PriceOfAll(b.ids, orders), b.ppn, b.pph23, b.adjustment, Made(b, rows, orders).totals)
  {
    TotalsComeOfPrices(invoices, orders, b, rows);
    TaxesAreNearest(PriceOfAll(b.ids, orders), b.ppn, b.pph23, b.adjustment);
  }
}
