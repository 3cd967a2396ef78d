/** An order's status and its history, written by any number of callers that read, decide, and then
    compare and set. */
module History {
  import opened Status
  import J = Journey

  type OrderId = nat
  type CallerId = nat

  /** `role` is the role the move was decided under; the opening entry has no source. */
  datatype Entry = Entry(from: Option<OrderStatus>, to: OrderStatus, role: Role)

  datatype Change = Change(from: OrderStatus, to: OrderStatus, role: Role)

  datatype Book = Book(status: OrderStatus, history: seq<Entry>)

  predicate IsLegal(e: Entry) {
    e.from.Some? && CanTransitionOrder(e.from.value, e.to, e.role) == Allowed
  }

  /** Each entry starts where the last one ended, from an opening with no source to the stored status. */
  ghost predicate IsChain(b: Book) {
    && |b.history| > 0 && b.history[0].from.None? && b.history[|b.history| - 1].to == b.status
    && forall i :: 0 < i < |b.history| ==> b.history[i].from == Some(b.history[i - 1].to)
  }

  /** The table allowed every move. */
  ghost predicate IsLawful(b: Book) { forall i :: 0 < i < |b.history| ==> IsLegal(b.history[i]) }

  ghost predicate IsPath(b: Book) { IsChain(b) && IsLawful(b) }

  function Opened(status: OrderStatus, role: Role): Book { Book(status, [Entry(None, status, role)]) }

  /** The guarded update and its entry, in one transaction; or nothing. */
  function Applied(b: Book, c: Change): Book {
    if b.status == c.from then Book(c.to, b.history + [Entry(Some(c.from), c.to, c.role)]) else b
  }

  lemma ApplyKeepsChain(b: Book, c: Change)
    requires IsChain(b)
    ensures IsChain(Applied(b, c)) && b.history <= Applied(b, c).history
    ensures b.status != c.from ==> Applied(b, c) == b
  {
  }

  lemma ApplyKeepsPath(b: Book, c: Change)
    requires IsPath(b) && CanTransitionOrder(c.from, c.to, c.role) == Allowed
    ensures IsPath(Applied(b, c)) && b.history <= Applied(b, c).history
  {
    ApplyKeepsChain(b, c);
  }

  // ---- Who may move an order -----------------------------------------------------------------

  predicate IsTransporter(order: J.Order, company: J.CompanyId) { order.transporter == Some(company) }

  /** What the table cannot say: which side of the order the caller has to be on. */
  predicate HasAuthority(order: J.Order, actor: J.Actor, to: OrderStatus) {
    if IsPlatform(actor.role) then true
    else if to == OrderApproved || to == OrderRejected
        || to == OrderReadyToPlan then IsTransporter(order, actor.company)
    else if to == OrderSubmitted then order.shipper == actor.company
    else J.Involves(order, actor.company)
  }

  function TransitionRefusal(orders: map<OrderId, J.Order>, id: OrderId, actor: J.Actor,
      to: OrderStatus): Option<J.Failure> {
    if id !in orders || !J.Involves(orders[id], actor.company) then Some(J.NotFound)
    else if CanTransitionOrder(orders[id].status, to, J.MachineRole(actor, orders[id])) != Allowed
        then Some(J.BadTransition)
    else if !HasAuthority(orders[id], actor, to) then Some(J.Forbidden)
    else None
  }

  // ---- The table -----------------------------------------------------------------------------

  type Entries = map<OrderId, seq<Entry>>

  ghost predicate AllChains(orders: map<OrderId, J.Order>, entries: Entries) {
    orders.Keys == entries.Keys && forall id :: id in orders ==> IsChain(Book(orders[id].status, entries[id]))
  }

  /** Every move on record was allowed. */
  ghost predicate AllLawful(orders: map<OrderId, J.Order>, entries: Entries) {
    forall id :: id in orders && id in entries ==> IsLawful(Book(orders[id].status, entries[id]))
  }

  lemma OneOrderWritten(orders: map<OrderId, J.Order>, entries: Entries, id: OrderId, order: J.Order,
      history: seq<Entry>)
    requires AllChains(orders, entries) && IsChain(Book(order.status, history))
    ensures AllChains(orders[id := order], entries[id := history])
    ensures AllLawful(orders, entries) && IsLawful(Book(order.status, history)) ==>
              AllLawful(orders[id := order], entries[id := history])
  {
  }

  class OrderTable {
    var orders: map<OrderId, J.Order>
    var entries: map<OrderId, seq<Entry>>

    function View(id: OrderId): Book
      requires id in orders && id in entries
      reads this
    {
      Book(orders[id].status, entries[id])
    }

    ghost predicate Valid() reads this { AllChains(orders, entries) }

    ghost predicate Lawful() reads this { AllLawful(orders, entries) }

    /** Nothing about any other order has changed, nor who is party to this one. */
    twostate predicate OthersKept(id: OrderId) reads this {
      && (forall other :: other != id ==>
           (other in orders <==> other in old(orders)) && (other in entries <==> other in old(entries)))
      && (forall other :: other != id && other in old(orders) ==> orders[other] == old(orders)[other])
      && (forall other :: other != id && other in old(entries) ==> entries[other] == old(entries)[other])
      && (id in old(orders) ==> id in orders && orders[id] == old(orders)[id].(status := orders[id].status))
    }

    constructor ()
      ensures Valid() && Lawful() && orders == map[]
    {
      orders, entries := map[], map[];
    }

    method Create(id: OrderId, order: J.Order, role: Role) returns (failure: Option<J.Failure>)
      requires Valid()
      modifies this
      ensures Valid() && OthersKept(id) && (old(Lawful()) ==> Lawful())
      ensures failure == if id in old(orders) then Some(J.Conflict) else None
      ensures failure.None? ==> id in orders && orders[id] == order && entries[id] == [Entry(None, order.status, role)]
      ensures failure.Some? ==> orders == old(orders) && entries == old(entries)
    {
      if id in orders { return Some(J.Conflict); }
      OneOrderWritten(orders, entries, id, order, Opened(order.status, role).history);
      orders := orders[id := order];
      entries := entries[id := [Entry(None, order.status, role)]];
      failure := None;
    }

    /** Any change is taken, if the order is still where it starts. */
    method ApplyStatus(id: OrderId, c: Change) returns (failure: Option<J.Failure>)
      requires Valid()
      modifies this
      ensures Valid() && OthersKept(id)
      ensures old(Lawful()) && CanTransitionOrder(c.from, c.to, c.role) == Allowed ==> Lawful()
      ensures failure == if id in old(orders) && old(orders)[id].status == c.from then None else Some(J.Conflict)
      ensures failure.None? ==> id in orders && View(id) == Applied(old(View(id)), c)
      ensures failure.None? ==> orders[id].status == c.to
      ensures failure.None? ==> entries[id] == old(entries)[id] + [Entry(Some(c.from), c.to, c.role)]
      ensures failure.Some? ==> orders == old(orders) && entries == old(entries)
    {
      if id !in orders || orders[id].status != c.from { return Some(J.Conflict); }
      ghost var after := Applied(View(id), c);
      ApplyKeepsChain(View(id), c);
      if Lawful() && CanTransitionOrder(c.from, c.to, c.role) == Allowed { ApplyKeepsPath(View(id), c); }
      OneOrderWritten(orders, entries, id, orders[id].(status := c.to), after.history);
      orders := orders[id := orders[id].(status := c.to)];
      entries := entries[id := entries[id] + [Entry(Some(c.from), c.to, c.role)]];
      failure := None;
    }

    /** Reads, decides and applies, with nobody in between: it then never loses. */
    method Transition(id: OrderId, actor: J.Actor, to: OrderStatus) returns (failure: Option<J.Failure>)
      requires Valid()
      modifies this
      ensures Valid() && OthersKept(id) && (old(Lawful()) ==> Lawful())
      ensures failure == TransitionRefusal(old(orders), id, actor, to)
      ensures failure.None? ==>
                var before := old(orders)[id];
                && id in orders && orders[id].status == to
                && entries[id] == old(entries)[id] + [Entry(Some(before.status), to, J.MachineRole(actor, before))]
      ensures failure.Some? ==> orders == old(orders) && entries == old(entries)
    {
      if id !in orders || !J.Involves(orders[id], actor.company) { return Some(J.NotFound); }
      var order := orders[id];
      var role := J.MachineRole(actor, order);
      if CanTransitionOrder(order.status, to, role) != Allowed { return Some(J.BadTransition); }
      if !HasAuthority(order, actor, to) { return Some(J.Forbidden); }
      failure := ApplyStatus(id, Change(order.status, to, role));
    }
  }

  /** The tenant's role name is not what decides: only the carrying company's own people accept work,
      a manager of the shipper's company included among those who may not. */
  lemma OnlyCarriersAccept(orders: map<OrderId, J.Order>, id: OrderId, actor: J.Actor, to: OrderStatus)
    requires to == OrderApproved || to == OrderRejected || to == OrderReadyToPlan
    requires TransitionRefusal(orders, id, actor, to).None?
    ensures IsTransporter(orders[id], actor.company) || IsPlatform(actor.role)
    ensures actor.bypass || actor.role != RoleDriver
  {
  }

  // ---- Callers in any interleaving -----------------------------------------------------------

  /** A caller has read a status, or has decided on a change of what it read. */
  datatype Call = Read(seen: OrderStatus) | Decided(change: Change)

  datatype Desk = Desk(book: Book, calls: map<CallerId, Call>, won: nat)

  datatype Step =
    | Look(caller: CallerId)
    | Decide(caller: CallerId, to: OrderStatus, role: Role)
    | Write(caller: CallerId)
    | GiveUp(caller: CallerId)

  function Do(d: Desk, s: Step): Desk {
    match s
    case Look(c) => d.(calls := d.calls[c := Read(d.book.status)])
    case Decide(c, to, role) =>
      if c in d.calls && d.calls[c].Read? && CanTransitionOrder(d.calls[c].seen, to, role) == Allowed then
        d.(calls := d.calls[c := Decided(Change(d.calls[c].seen, to, role))])
      else d.(calls := d.calls - {c})
    case Write(c) =>
      if c in d.calls && d.calls[c].Decided? then
        Desk(Applied(d.book, d.calls[c].change), d.calls - {c},
            if d.book.status == d.calls[c].change.from then d.won + 1 else d.won)
      else d
    case GiveUp(c) => d.(calls := d.calls - {c})
  }

  function Run(d: Desk, steps: seq<Step>): Desk
    decreases |steps|
  {
    if steps == [] then d else Run(Do(d, steps[0]), steps[1..])
  }

  ghost predicate DecidedLegally(d: Desk) {
    forall c :: c in d.calls && d.calls[c].Decided? ==>
      CanTransitionOrder(d.calls[c].change.from, d.calls[c].change.to, d.calls[c].change.role) == Allowed
  }

  /** Whatever the interleaving, the history is one legal path ending in the stored status, entries
      are only ever added, and there is one for the opening and one for each change that won. */
  lemma {:induction false} EveryInterleavingIsOnePath(d: Desk, steps: seq<Step>)
    requires IsPath(d.book) && DecidedLegally(d) && |d.book.history| == 1 + d.won
    ensures var e := Run(d, steps); IsPath(e.book) && d.book.history <= e.book.history && |e.book.history| == 1 + e.won
    decreases |steps|
  {
    if steps != [] {
      if steps[0].Write? && steps[0].caller in d.calls && d.calls[steps[0].caller].Decided? {
        ApplyKeepsPath(d.book, d.calls[steps[0].caller].change);
      }
      EveryInterleavingIsOnePath(Do(d, steps[0]), steps[1..]);
    }
  }

  // ---- What a path can look like -------------------------------------------------------------

  /** How far along its life an order is; planning can go back and forth, nothing else can. */
  function Phase(s: OrderStatus): nat {
    match s
    case OrderDraft => 0
    case OrderSubmitted => 1
    case OrderApproved => 2
    case OrderReadyToPlan => 3
    case OrderAssigned => 3
    case OrderCancelRequested => 3
    case OrderInTransit => 4
    case OrderDelivered => 5
    case _ => 6
  }

  lemma MovesGoForward(from: OrderStatus, to: OrderStatus, role: Role)
    requires CanTransitionOrder(from, to, role) == Allowed
    ensures Phase(from) < Phase(to) || (Phase(from) == Phase(to) == 3 && from != to)
  {
  }

  lemma {:induction false} PathGoesForward(b: Book, i: nat, j: nat)
    requires IsPath(b) && i <= j < |b.history|
    ensures Phase(b.history[i].to) <= Phase(b.history[j].to)
    ensures i < j && Phase(b.history[j].to) == Phase(b.history[i].to) ==> Phase(b.history[j].to) == 3
    decreases j - i
  {
    if i < j {
      PathGoesForward(b, i, j - 1);
      MovesGoForward(b.history[j - 1].to, b.history[j].to, b.history[j].role);
    }
  }

  /** Only the planning states can be entered twice, and a final state is the last. */
  lemma OnlyPlanningRecurs(b: Book, i: nat, j: nat)
    requires IsPath(b) && i < j < |b.history|
    ensures b.history[i].to == b.history[j].to ==>
              b.history[i].to == OrderReadyToPlan || b.history[i].to == OrderAssigned
                  || b.history[i].to == OrderCancelRequested
    ensures !OrderIsFinal(b.history[i].to)
  {
    PathGoesForward(b, i, j);
    FinalStatesHaveNoSuccessorOnPath(b, i);
  }

  lemma FinalStatesHaveNoSuccessorOnPath(b: Book, i: nat)
    requires IsPath(b) && i + 1 < |b.history|
    ensures !OrderIsFinal(b.history[i].to)
  {
    assert IsLegal(b.history[i + 1]);
  }
}
