/** Which aggregates a run of the archiver may take: the candidate conditions, and what they mean
    for the rows that other rows still name. */
module References {
  import opened Status
  import A = Agreements
  import B = Billing

  type Id = nat
  type Time = nat

  datatype Invoice = Invoice(status: B.InvoiceStatus, updatedAt: Time, orders: set<Id>) // those of its lines
  datatype Order = Order(status: OrderStatus, updatedAt: Time, agreement: Option<Id>, parent: Option<Id>)
  datatype Agreement = Agreement(
    status: A.AgreementStatus, updatedAt: Time, root: Id, version: nat, supersedes: Option<Id>)

  datatype Db = Db(invoices: map<Id, Invoice>, orders: map<Id, Order>, agreements: map<Id, Agreement>)

  /** One cutoff per kind of aggregate. */
  datatype Cutoffs = Cutoffs(invoices: Time, orders: Time, agreements: Time)

  // ---- The candidate conditions --------------------------------------------------------------

  predicate IsOver(status: A.AgreementStatus) {
    status == A.Expired || status == A.Superseded || status == A.AgreementCancelled || status == A.AgreementRejected
  }

  predicate InvoiceMayGo(db: Db, i: Id, cutoff: Time) {
    && i in db.invoices && db.invoices[i].updatedAt < cutoff
    && (db.invoices[i].status == B.Paid || db.invoices[i].status == B.Cancelled)
  }

  predicate Billed(db: Db, o: Id) { exists i :: i in db.invoices && o in db.invoices[i].orders }

  predicate HasChild(db: Db, o: Id) { exists c :: c in db.orders && db.orders[c].parent == Some(o) }

  predicate OrderMayGo(db: Db, o: Id, cutoff: Time) {
    o in db.orders && OrderIsFinal(db.orders[o].status) && db.orders[o].updatedAt < cutoff && !Billed(db, o)
        && !HasChild(db, o)
  }

  predicate Priced(db: Db, a: Id) { exists o :: o in db.orders && db.orders[o].agreement == Some(a) }

  /** Another version names it as its root or as the version it superseded. */
  predicate Named(db: Db, a: Id) {
    exists b :: b in db.agreements && b != a && (db.agreements[b].root == a || db.agreements[b].supersedes == Some(a))
  }

  predicate AgreementMayGo(db: Db, a: Id, cutoff: Time) {
    a in db.agreements && IsOver(db.agreements[a].status) && db.agreements[a].updatedAt < cutoff && !Priced(db, a)
        && !Named(db, a)
  }

  // ---- A run ---------------------------------------------------------------------------------

  function Without<T>(rows: map<Id, T>, gone: set<Id>): map<Id, T> {
    map k | k in rows && k !in gone :: rows[k]
  }

  /** What a run took of each kind: any of its candidates, listed after the kind before had gone. */
  datatype Taken = Taken(cutoffs: Cutoffs, invoices: set<Id>, orders: set<Id>, agreements: set<Id>)

  function AfterInvoices(db: Db, t: Taken): Db { db.(invoices := Without(db.invoices, t.invoices)) }
  function AfterOrders(db: Db, t: Taken): Db {
    AfterInvoices(db, t).(orders := Without(db.orders, t.orders))
  }
  function After(db: Db, t: Taken): Db {
    AfterOrders(db, t).(agreements := Without(db.agreements, t.agreements))
  }

  ghost predicate TakesCandidates(db: Db, t: Taken) {
    && (forall i :: i in t.invoices ==> InvoiceMayGo(db, i, t.cutoffs.invoices))
    && (forall o :: o in t.orders ==> OrderMayGo(AfterInvoices(db, t), o, t.cutoffs.orders))
    && (forall a :: a in t.agreements ==> AgreementMayGo(AfterOrders(db, t), a, t.cutoffs.agreements))
  }

  /** Nothing is left behind by a batch limit or a failed commit. */
  ghost predicate TakesAll(db: Db, t: Taken) {
    && TakesCandidates(db, t)
    && (forall i :: InvoiceMayGo(db, i, t.cutoffs.invoices) ==> i in t.invoices)
    && (forall o :: OrderMayGo(AfterInvoices(db, t), o, t.cutoffs.orders) ==> o in t.orders)
    && (forall a :: AgreementMayGo(AfterOrders(db, t), a, t.cutoffs.agreements) ==> a in t.agreements)
  }

  function Run(db: Db, runs: seq<Taken>): Db
    decreases |runs|
  {
    if runs == [] then db else Run(After(db, runs[0]), runs[1..])
  }

  ghost predicate CandidateRuns(db: Db, runs: seq<Taken>)
    decreases |runs|
  {
    runs == [] || (TakesCandidates(db, runs[0]) && CandidateRuns(After(db, runs[0]), runs[1..]))
  }

  ghost predicate FullRuns(db: Db, runs: seq<Taken>)
    decreases |runs|
  {
    runs == [] || (TakesAll(db, runs[0]) && FullRuns(After(db, runs[0]), runs[1..]))
  }

  // ---- What is alive stays hot ---------------------------------------------------------------

  /** Cold for one of these runs. */
  ghost predicate ColdForSome(updatedAt: Time, runs: seq<Taken>, cutoff: Cutoffs -> Time) {
    exists r :: 0 <= r < |runs| && updatedAt < cutoff(runs[r].cutoffs)
  }

  lemma ColdLater(updatedAt: Time, runs: seq<Taken>, cutoff: Cutoffs -> Time)
    requires runs != []
    ensures ColdForSome(updatedAt, runs, cutoff) <==>
            updatedAt < cutoff(runs[0].cutoffs) || ColdForSome(updatedAt, runs[1..], cutoff)
  {
    if ColdForSome(updatedAt, runs, cutoff) {
      var r :| 0 <= r < |runs| && updatedAt < cutoff(runs[r].cutoffs);
      if r > 0 { assert runs[1..][r - 1] == runs[r]; }
    }
    if ColdForSome(updatedAt, runs[1..], cutoff) {
      var r :| 0 <= r < |runs[1..]| && updatedAt < cutoff(runs[1..][r].cutoffs);
      assert runs[r + 1] == runs[1..][r];
    }
  }

  /** An invoice that is not paid or cancelled, or was touched since every cutoff, is in no run's files. */
  lemma {:induction false} LiveInvoiceStays(db: Db, runs: seq<Taken>, i: Id)
    requires CandidateRuns(db, runs) && i in db.invoices
    requires (db.invoices[i].status != B.Paid && db.invoices[i].status != B.Cancelled)
             || !ColdForSome(db.invoices[i].updatedAt, runs, (c: Cutoffs) => c.invoices)
    ensures i in Run(db, runs).invoices && Run(db, runs).invoices[i] == db.invoices[i]
    decreases |runs|
  {
    if runs != [] {
      ColdLater(db.invoices[i].updatedAt, runs, (c: Cutoffs) => c.invoices);
      LiveInvoiceStays(After(db, runs[0]), runs[1..], i);
    }
  }

  lemma {:induction false} LiveOrderStays(db: Db, runs: seq<Taken>, o: Id)
    requires CandidateRuns(db, runs) && o in db.orders
    requires db.orders[o].status !in {OrderCompleted, OrderCancelled, OrderRejected}
             || !ColdForSome(db.orders[o].updatedAt, runs, (c: Cutoffs) => c.orders)
    ensures o in Run(db, runs).orders && Run(db, runs).orders[o] == db.orders[o]
    decreases |runs|
  {
    if runs != [] {
      ColdLater(db.orders[o].updatedAt, runs, (c: Cutoffs) => c.orders);
      LiveOrderStays(After(db, runs[0]), runs[1..], o);
    }
  }

  lemma {:induction false} LiveAgreementStays(db: Db, runs: seq<Taken>, a: Id)
    requires CandidateRuns(db, runs) && a in db.agreements
    requires db.agreements[a].status in {A.Submitted, A.PendingApproval, A.Active}
             || !ColdForSome(db.agreements[a].updatedAt, runs, (c: Cutoffs) => c.agreements)
    ensures a in Run(db, runs).agreements && Run(db, runs).agreements[a] == db.agreements[a]
    decreases |runs|
  {
    if runs != [] {
      ColdLater(db.agreements[a].updatedAt, runs, (c: Cutoffs) => c.agreements);
      LiveAgreementStays(After(db, runs[0]), runs[1..], a);
    }
  }

  // ---- References stay closed ----------------------------------------------------------------

  /** Every row that a hot row names is hot. */
  ghost predicate Closed(db: Db) {
    && (forall i, o :: i in db.invoices && o in db.invoices[i].orders ==> o in db.orders)
    && (forall o :: o in db.orders && db.orders[o].agreement.Some? ==> db.orders[o].agreement.value in db.agreements)
    && (forall o :: o in db.orders && db.orders[o].parent.Some? ==> db.orders[o].parent.value in db.orders)
    && (forall a :: a in db.agreements ==> db.agreements[a].root in db.agreements)
    && (forall a :: a in db.agreements && db.agreements[a].supersedes.Some? ==>
         db.agreements[a].supersedes.value in db.agreements)
  }

  lemma OrdersLeaveClosed(db: Db, gone: set<Id>, cutoff: Time)
    requires Closed(db) && forall o :: o in gone ==> OrderMayGo(db, o, cutoff)
    ensures Closed(db.(orders := Without(db.orders, gone)))
  {
  }

  lemma AgreementsLeavePriced(db: Db, gone: set<Id>, cutoff: Time, o: Id)
    requires Closed(db) && forall a :: a in gone ==> AgreementMayGo(db, a, cutoff)
    requires o in db.orders && db.orders[o].agreement.Some?
    ensures db.orders[o].agreement.value in Without(db.agreements, gone)
  {
    assert Priced(db, db.orders[o].agreement.value);
  }

  lemma NamedStays(db: Db, gone: set<Id>, a: Id, target: Id)
    requires forall b :: b in gone ==> !Named(db, b)
    requires a in db.agreements && a !in gone
    requires db.agreements[a].root == target || db.agreements[a].supersedes == Some(target)
    ensures target !in gone
  {
  }

  lemma {:induction false} AgreementsLeaveClosed(db: Db, gone: set<Id>, cutoff: Time)
    requires Closed(db) && forall a :: a in gone ==> AgreementMayGo(db, a, cutoff)
    ensures Closed(db.(agreements := Without(db.agreements, gone)))
  {
    forall o | o in db.orders && db.orders[o].agreement.Some?
        ensures db.orders[o].agreement.value in Without(db.agreements, gone) {
      AgreementsLeavePriced(db, gone, cutoff, o);
    }
    forall a | a in Without(db.agreements, gone)
      ensures db.agreements[a].root in Without(db.agreements, gone)
      ensures db.agreements[a].supersedes.Some? ==> db.agreements[a].supersedes.value in Without(db.agreements, gone)
    {
      NamedStays(db, gone, a, db.agreements[a].root);
      if db.agreements[a].supersedes.Some? { NamedStays(db, gone, a, db.agreements[a].supersedes.value); }
    }
  }

  /** No run, however much of its candidates it takes, takes a row that a remaining one names. */
  lemma {:induction false} ReferencesStayClosed(db: Db, runs: seq<Taken>)
    requires Closed(db) && CandidateRuns(db, runs)
    ensures Closed(Run(db, runs))
    decreases |runs|
  {
    if runs != [] {
      OrdersLeaveClosed(AfterInvoices(db, runs[0]), runs[0].orders, runs[0].cutoffs.orders);
      AgreementsLeaveClosed(AfterOrders(db, runs[0]), runs[0].agreements, runs[0].cutoffs.agreements);
      ReferencesStayClosed(After(db, runs[0]), runs[1..]);
    }
  }

  /** An invoice not yet settled keeps its orders, and what they were priced by, out of the archive. */
  lemma {:induction false} LiveInvoiceKeepsItsOwn(db: Db, runs: seq<Taken>, i: Id, o: Id)
    requires Closed(db) && CandidateRuns(db, runs) && i in db.invoices && o in db.invoices[i].orders
    requires db.invoices[i].status != B.Paid && db.invoices[i].status != B.Cancelled
    ensures o in Run(db, runs).orders && Run(db, runs).orders[o] == db.orders[o]
    ensures db.orders[o].agreement.Some? ==> db.orders[o].agreement.value in Run(db, runs).agreements
  {
    LiveInvoiceStays(db, runs, i);
    ReferencesStayClosed(db, runs);
    RunsOnlyTake(db, runs);
  }

  lemma {:induction false} RunsOnlyTake(db: Db, runs: seq<Taken>)
    ensures forall o :: o in Run(db, runs).orders ==> o in db.orders && Run(db, runs).orders[o] == db.orders[o]
    decreases |runs|
  {
    if runs != [] { RunsOnlyTake(After(db, runs[0]), runs[1..]); }
  }

  // ---- The order of the kinds ----------------------------------------------------------------

  lemma BilledByWhatStays(db: Db, t: Taken, o: Id)
    ensures Billed(AfterInvoices(db, t), o) <==>
            exists i :: i in db.invoices && o in db.invoices[i].orders && i !in t.invoices
  {
    var mid := AfterInvoices(db, t);
    if i :| i in db.invoices && o in db.invoices[i].orders && i !in t.invoices {
      assert i in mid.invoices && o in mid.invoices[i].orders;
    }
  }

  /** One complete run takes an invoice exactly when it is paid or cancelled, and cold. */
  lemma {:induction false} InvoiceLeavesIff(db: Db, t: Taken, i: Id)
    requires TakesAll(db, t) && i in db.invoices
    ensures i !in After(db, t).invoices <==>
            db.invoices[i].status in {B.Paid, B.Cancelled} && db.invoices[i].updatedAt < t.cutoffs.invoices
  {
    assert InvoiceMayGo(db, i, t.cutoffs.invoices) <==> i in t.invoices;
  }

  /** Referrers go first, so in one complete run an order leaves with its invoices: exactly when it is over
      and cold itself, no order names it as its parent, and no invoice that names it stays. */
  lemma OrderLeavesIff(db: Db, t: Taken, o: Id)
    requires TakesAll(db, t) && o in db.orders
    ensures o !in After(db, t).orders <==>
              && db.orders[o].status in {OrderCompleted, OrderCancelled, OrderRejected}
              && db.orders[o].updatedAt < t.cutoffs.orders
              && (forall c :: c in db.orders ==> db.orders[c].parent != Some(o))
              && (forall i :: i in After(db, t).invoices ==> o !in db.invoices[i].orders)
  {
    assert HasChild(AfterInvoices(db, t), o) <==> HasChild(db, o);
    BilledByWhatStays(db, t, o);
  }

  /** And an agreement leaves in the run that takes the last of its orders, if it is over and cold and no
      other version names it. */
  lemma AgreementLeavesIff(db: Db, t: Taken, a: Id)
    requires TakesAll(db, t) && a in db.agreements
    ensures a !in After(db, t).agreements <==>
              && db.agreements[a].status in {A.Expired, A.Superseded, A.AgreementCancelled, A.AgreementRejected}
              && db.agreements[a].updatedAt < t.cutoffs.agreements
              && (forall b :: b in db.agreements && b != a ==>
                    db.agreements[b].root != a && db.agreements[b].supersedes != Some(a))
              && (forall o :: o in After(db, t).orders ==> db.orders[o].agreement != Some(a))
  {
  }

  // ---- A lineage leaves newest first, its root last ------------------------------------------

  /** The versions of one lineage that are hot. */
  function Lineage(db: Db, root: Id): set<Id> { set a | a in db.agreements && db.agreements[a].root == root }

  /** The rows of one lineage as CreateRevision makes them: version numbers told apart, the root's
      the lowest, and each version superseding an earlier one of the lineage. */
  ghost predicate IsLineage(db: Db, root: Id) {
    && (forall a :: a in Lineage(db, root) && a != root && root in db.agreements ==>
         db.agreements[root].version < db.agreements[a].version)
    && (forall a, b :: a in Lineage(db, root) && b in Lineage(db, root) ==>
         db.agreements[a].version == db.agreements[b].version ==> a == b)
    && (forall a, b :: a in Lineage(db, root) && b in db.agreements && db.agreements[b].supersedes == Some(a) ==>
          b in Lineage(db, root) && db.agreements[a].version < db.agreements[b].version)
    && (forall b :: b in db.agreements && db.agreements[b].root in Lineage(db, root) ==> b in Lineage(db, root))
    && (root in db.agreements ==> root in Lineage(db, root))
  }

  /** The whole lineage is over, unused, and cold for every run to come. */
  ghost predicate Done(db: Db, root: Id, runs: seq<Taken>) {
    forall a :: a in Lineage(db, root) ==>
      IsOver(db.agreements[a].status) && !Priced(db, a) && forall r :: 0 <= r < |runs| ==>
          db.agreements[a].updatedAt < runs[r].cutoffs.agreements
  }

  lemma Newest(db: Db, versions: set<Id>) returns (newest: Id)
    requires versions != {} && versions <= db.agreements.Keys
    ensures newest in versions && forall a :: a in versions ==>
            db.agreements[a].version <= db.agreements[newest].version
  {
    newest :| newest in versions;
    var left := versions - {newest};
    while left != {}
      invariant left <= versions && newest in versions
      invariant forall a :: a in versions && a !in left ==> db.agreements[a].version <= db.agreements[newest].version
      decreases |left|
    {
      var a :| a in left;
      if db.agreements[a].version > db.agreements[newest].version { newest := a; }
      left := left - {a};
    }
  }

  lemma NewestIsNotNamed(db: Db, root: Id, n: Id)
    requires IsLineage(db, root) && n in Lineage(db, root)
    requires forall a :: a in Lineage(db, root) ==> db.agreements[a].version <= db.agreements[n].version
    ensures !Named(db, n)
  {
  }

  /** A complete run takes at least the newest version left. */
  lemma RunTakesTheNewest(db: Db, root: Id, runs: seq<Taken>)
    requires runs != [] && TakesAll(db, runs[0]) && IsLineage(db, root) && Done(db, root, runs)
             && Lineage(db, root) != {}
    ensures Lineage(After(db, runs[0]), root) < Lineage(db, root)
  {
    var n := Newest(db, Lineage(db, root));
    NewestIsNotNamed(db, root, n);
    AgreementLeavesIff(db, runs[0], n);
    assert forall o :: o in db.orders ==> db.orders[o].agreement != Some(n) by { assert !Priced(db, n); }
    assert n in Lineage(db, root) && n !in Lineage(After(db, runs[0]), root);
  }

  lemma RunKeepsLineage(db: Db, root: Id, runs: seq<Taken>)
    requires runs != [] && TakesAll(db, runs[0]) && IsLineage(db, root) && Done(db, root, runs)
    ensures var after := After(db, runs[0]); IsLineage(after, root) && Done(after, root, runs[1..])
  {
    var after := After(db, runs[0]);
    assert forall a :: a in Lineage(after, root) ==> a in Lineage(db, root);
    forall a | a in Lineage(after, root) ensures !Priced(after, a) {
      assert !Priced(db, a);
    }
  }

  /** A lineage of n versions, over, cold and unused, is gone after n complete runs at the latest. */
  lemma {:induction false} LineageLeavesInTime(db: Db, root: Id, runs: seq<Taken>)
    requires IsLineage(db, root) && Done(db, root, runs) && FullRuns(db, runs) && |Lineage(db, root)| <= |runs|
    ensures Lineage(Run(db, runs), root) == {}
    decreases |runs|
  {
    if runs != [] {
      var after := After(db, runs[0]);
      RunKeepsLineage(db, root, runs);
      if Lineage(db, root) != {} {
        RunTakesTheNewest(db, root, runs);
        Smaller(Lineage(after, root), Lineage(db, root));
      } else {
        assert Lineage(after, root) == {};
      }
      LineageLeavesInTime(after, root, runs[1..]);
    }
  }

  lemma Smaller(a: set<Id>, b: set<Id>)
    requires a < b
    ensures |a| < |b|
  {
    var x :| x in b && x !in a;
    assert a <= b - {x};
    SubsetSize(a, b - {x});
  }

  lemma SubsetSize(a: set<Id>, b: set<Id>)
    requires a <= b
    ensures |a| <= |b|
    decreases |a|
  {
    if a != {} {
      var x :| x in a;
      SubsetSize(a - {x}, b - {x});
    }
  }

  /** The root is the last of its lineage to go, in any run at all. */
  lemma {:induction false} RootLeavesLast(db: Db, root: Id, runs: seq<Taken>)
    requires CandidateRuns(db, runs) && (Lineage(db, root) != {} ==> root in db.agreements)
    ensures Lineage(Run(db, runs), root) != {} ==> root in Run(db, runs).agreements
    decreases |runs|
  {
    if runs != [] {
      var after := After(db, runs[0]);
      if a :| a in Lineage(after, root) {
        assert a in Lineage(db, root);
        assert AfterOrders(db, runs[0]).agreements == db.agreements;
        if a != root { assert Named(AfterOrders(db, runs[0]), root); }
      }
      RootLeavesLast(after, root, runs[1..]);
    }
  }
}
