/** One agreement lineage: its versions, and what each whole transaction does to them. Rows are
    known by their version number, which the unique index on root and version allows. */
module Agreements {
  import opened Status

  type Version = nat

  datatype AgreementStatus =
    | Submitted | PendingApproval | Active | Superseded | AgreementRejected | Expired | AgreementCancelled

  datatype Row = Row(status: AgreementStatus, supersededAt: bool)
  {
    /** Approved and not yet superseded. */
    predicate Live() { status == Active && !supersededAt }
  }

  type Rows = map<Version, Row>

  datatype Failure = NotFound | Forbidden | Conflict | Invalid

  /** A rejected or cancelled version never took effect: there is nothing to revise. */
  predicate NeverInForce(row: Row) { row.status == AgreementRejected || row.status == AgreementCancelled }

  // ---- What holds of a lineage ---------------------------------------------------------------

  /** The versions are exactly 1 to n. */
  ghost predicate Numbered(rows: Rows) { forall v :: v in rows <==> 1 <= v <= |rows| }

  predicate Pends(rows: Rows, v: Version) { v in rows && rows[v].status == PendingApproval }
  predicate Lives(rows: Rows, v: Version) { v in rows && rows[v].Live() }

  ghost predicate OnePending(rows: Rows) { forall v, w :: Pends(rows, v) && Pends(rows, w) ==> v == w }
  ghost predicate OneLiveAtMost(rows: Rows) { forall v, w :: Lives(rows, v) && Lives(rows, w) ==> v == w }
  ghost predicate OneLive(rows: Rows) { OneLiveAtMost(rows) && exists v :: Lives(rows, v) }

  ghost predicate NoneSubmitted(rows: Rows) { forall v :: v in rows ==> rows[v].status != Submitted }

  /** A version still to be decided was never superseded. */
  ghost predicate UndecidedIsCurrent(rows: Rows) {
    forall v :: v in rows && (rows[v].status == PendingApproval || rows[v].status == Submitted) ==>
        !rows[v].supersededAt
  }

  // ---- The transactions, whole ---------------------------------------------------------------

  function Revised(rows: Rows): Rows { rows[|rows| + 1 := Row(PendingApproval, false)] }

  predicate HasPending(rows: Rows) { exists v :: v in rows && Pends(rows, v) }

  /** The approved version goes live and every other live one is retired. */
  function Approved(rows: Rows, v: Version): Rows {
    map x | x in rows ::
      if x == v then rows[x].(status := Active)
      else if rows[x].Live() then Row(Superseded, true)
      else rows[x]
  }

  function WithStatus(rows: Rows, v: Version, status: AgreementStatus): Rows
    requires v in rows
  {
    rows[v := rows[v].(status := status)]
  }

  // ---- The terms of a version ----------------------------------------------------------------

  type Date = int

  datatype Terms = Terms(validFrom: Date, validUntil: Date, rates: seq<real>)

  /** What a version says and who asked for it; a lineage's first version was not asked for. */
  datatype Contract = Contract(terms: Terms, requestedBy: Option<nat>)

  datatype RevisionKind = Renewal | Update | UnknownKind

  /** What a revision restates; what it leaves unsaid is carried forward. */
  datatype Proposal = Proposal(kind: RevisionKind, validFrom: Option<Date>, validUntil: Option<Date>, rates: seq<real>)

  predicate NoNegative(rates: seq<real>) { forall i :: 0 <= i < |rates| ==> rates[i] >= 0.0 }

  // ---- What each of them keeps ---------------------------------------------------------------

  ghost predicate Sound(rows: Rows) { Numbered(rows) && OnePending(rows) && UndecidedIsCurrent(rows) }

  lemma RevisionKeepsSound(rows: Rows)
    requires Sound(rows) && !HasPending(rows)
    ensures Sound(Revised(rows))
    ensures forall v :: Lives(Revised(rows), v) <==> Lives(rows, v)
    ensures forall v :: v in Revised(rows) <==> v in rows || v == |rows| + 1
  {
  }

  lemma SameVersionsNumbered(rows: Rows, after: Rows)
    requires Numbered(rows) && after.Keys == rows.Keys
    ensures Numbered(after) && |after| == |rows|
  {
  }

  lemma ApprovalKeepsSound(rows: Rows, v: Version)
    requires Sound(rows) && Pends(rows, v)
    ensures Sound(Approved(rows, v)) && !HasPending(Approved(rows, v))
    ensures forall w :: Lives(Approved(rows, v), w) <==> w == v
  {
    var after := Approved(rows, v);
    assert after.Keys == rows.Keys;
    SameVersionsNumbered(rows, after);
    forall w ensures !Pends(after, w) { if Pends(after, w) { assert Pends(rows, w); } }
  }

  /** What an approval is, row by row. */
  lemma ApprovedRows(rows: Rows, v: Version, after: Rows)
    requires Pends(rows, v) && after.Keys == rows.Keys && after[v] == rows[v].(status := Active)
    requires forall w :: w in rows && w != v ==> after[w] == if Lives(rows, w) then Row(Superseded, true) else rows[w]
    ensures after == Approved(rows, v)
  {
    assert Approved(rows, v).Keys == rows.Keys;
  }

  lemma DecisionKeepsSound(rows: Rows, v: Version, status: AgreementStatus)
    requires Sound(rows) && v in rows && status != PendingApproval && status != Submitted
    ensures Sound(WithStatus(rows, v, status))
    ensures status != Active ==> forall w :: Lives(WithStatus(rows, v, status), w) <==> Lives(rows, w) && w != v
  {
    var after := WithStatus(rows, v, status);
    assert after.Keys == rows.Keys;
    SameVersionsNumbered(rows, after);
    forall w ensures Pends(after, w) <==> Pends(rows, w) && w != v {}
  }

  /** A renewal's own version is the only live one; an update waits, and leaves the live ones live. */
  ghost predicate InForceAfter(before: Rows, after: Rows, version: Version, renewal: bool) {
    if renewal then !HasPending(after) && forall v :: Lives(after, v) <==> v == version
    else Pends(after, version) && forall v :: Lives(after, v) <==> Lives(before, v)
  }

  lemma BornPending(rows: Rows)
    requires Sound(rows) && !HasPending(rows)
    ensures var revised, version := Revised(rows), |rows| + 1;
            |revised| == version && InForceAfter(rows, revised, version, false)
  {
    RevisionKeepsSound(rows);
    assert |rows| + 1 !in rows;
  }

  // ---- The table, updated in place -----------------------------------------------------------

  class AgreementTable {
    var rows: Rows
    var contracts: map<Version, Contract>
    const shipper: nat
    const transporter: nat

    ghost predicate Valid() reads this { Sound(rows) && contracts.Keys == rows.Keys }

    constructor (status: AgreementStatus, agreed: Terms, shipper: nat, transporter: nat)
      ensures Valid() && rows == map[1 := Row(status, false)] && contracts == map[1 := Contract(agreed, None)]
    {
      rows, contracts := map[1 := Row(status, false)], map[1 := Contract(agreed, None)];
      this.shipper, this.transporter := shipper, transporter;
    }

    /** COALESCE(MAX(version), 0), as a scan of the versions. */
    method MaxVersion() returns (max: Version)
      requires Numbered(rows)
      ensures max == |rows|
    {
      var left := rows.Keys;
      max := 0;
      while left != {}
        invariant left <= rows.Keys
        invariant max == 0 || max in rows
        invariant forall v :: v in rows && v !in left ==> v <= max
        decreases |left|
      {
        var v :| v in left;
        left := left - {v};
        if v > max { max := v; }
      }
      if |rows| > 0 { assert |rows| in rows; }
    }

    method CreateRevision(previous: Version, agreed: Terms, user: nat) returns (r: Option<Failure>)
      requires Valid()
      modifies this
      ensures Valid()
      ensures r == if previous !in old(rows) then Some(NotFound) else if HasPending(old(rows)) then Some(Conflict)
              else None
      ensures rows == if r.None? then old(rows)[|old(rows)| + 1 := Row(PendingApproval, false)] else old(rows)
      ensures contracts == if r.None? then old(contracts)[|rows| := Contract(agreed, Some(user))] else old(contracts)
      ensures r.None? ==> |rows| == |old(rows)| + 1 && InForceAfter(old(rows), rows, |rows|, false)
    {
      if previous !in rows { return Some(NotFound); }
      var max := MaxVersion();
      if HasPending(rows) { return Some(Conflict); }
      RevisionKeepsSound(rows);
      BornPending(rows);
      rows := rows[max + 1 := Row(PendingApproval, false)];
      contracts := contracts[max + 1 := Contract(agreed, Some(user))];
      return None;
    }

    /** Two writes: the version goes live, then whichever others were live are retired. */
    method Approve(v: Version) returns (r: Option<Failure>)
      requires Valid()
      modifies this`rows
      ensures Valid()
      ensures r == if v !in old(rows) then Some(NotFound)
              else if old(rows)[v].status != PendingApproval then Some(Conflict) else None
      ensures r.Some? ==> rows == old(rows)
      ensures r.None? ==> |rows| == |old(rows)| && rows.Keys == old(rows.Keys) && rows[v] == Row(Active, false)
      ensures r.None? ==> forall w :: w in rows && w != v ==>
                rows[w] == if Lives(old(rows), w) then Row(Superseded, true) else old(rows)[w]
    {
      if v !in rows { return Some(NotFound); }
      if rows[v].status != PendingApproval { return Some(Conflict); }
      ghost var before := rows;
      ApprovalKeepsSound(rows, v);
      rows := rows[v := rows[v].(status := Active)];
      rows := map x | x in rows :: if x != v && rows[x].Live() then Row(Superseded, true) else rows[x];
      assert rows.Keys == before.Keys;
      SameVersionsNumbered(before, rows);
      ApprovedRows(before, v, rows);
      return None;
    }

    /** The terms of the new version: what the proposal restates, and what the previous one says of the
        rest. Refused are a term that ends before it begins, a renewal that does not go beyond the
        version it renews, and rates that are missing or negative. */
    method BuildRevision(previous: Version, p: Proposal) returns (built: Option<Terms>)
      requires Valid() && previous in rows
      ensures var base := contracts[previous].terms;
              var from := if p.validFrom.Some? then p.validFrom.value else base.validFrom;
              var until := if p.validUntil.Some? then p.validUntil.value else base.validUntil;
              var rates := if p.rates != [] then p.rates else base.rates;
              var stands := && from <= until && (p.kind == Renewal ==> base.validUntil < until)
                            && rates != [] && NoNegative(rates);
              built == if stands then Some(Terms(from, until, rates)) else None
    {
      var base := contracts[previous].terms;
      var from, until := base.validFrom, base.validUntil;
      if p.validFrom.Some? { from := p.validFrom.value; }
      if p.validUntil.Some? { until := p.validUntil.value; }
      if until < from { return None; }
      if p.kind == Renewal && until <= base.validUntil { return None; }
      var rates := p.rates;
      if |rates| == 0 { rates := base.rates; }
      if |rates| == 0 { return None; }
      for i := 0 to |rates|
        invariant forall k :: 0 <= k < i ==> rates[k] >= 0.0
      {
        if rates[i] < 0.0 { return None; }
      }
      built := Some(Terms(from, until, rates));
    }

    /** Only the transporter's people revise, and only a version that was in force. */
    predicate MayRevise(company: nat, previous: Version, kind: RevisionKind) reads this {
      && kind != UnknownKind && company == transporter && previous in rows
      && rows[previous].status != AgreementRejected && rows[previous].status != AgreementCancelled
    }

    method CheckRevision(company: nat, previous: Version, p: Proposal)
        returns (r: Option<Failure>, agreed: Option<Terms>)
      requires Valid()
      ensures r.None? ==> MayRevise(company, previous, p.kind)
      ensures MayRevise(company, previous, p.kind) ==>
                var base := contracts[previous].terms;
                var from := if p.validFrom.Some? then p.validFrom.value else base.validFrom;
                var until := if p.validUntil.Some? then p.validUntil.value else base.validUntil;
                var rates := if p.rates != [] then p.rates else base.rates;
                var stands := && from <= until && (p.kind == Renewal ==> base.validUntil < until)
                              && rates != [] && NoNegative(rates);
                if stands then r.None? && agreed == Some(Terms(from, until, rates)) else r == Some(Invalid)
    {
      if p.kind == UnknownKind { return Some(Invalid), None; }
      if previous !in rows || (company != shipper && company != transporter) { return Some(NotFound), None; }
      if company != transporter { return Some(Forbidden), None; }
      if NeverInForce(rows[previous]) { return Some(Invalid), None; }
      agreed := BuildRevision(previous, p);
      r := if agreed.None? then Some(Invalid) else None;
    }

    /** A renewal is born pending like every revision, and then approved on the spot. */
    method Renew(previous: Version, agreed: Terms, user: nat) returns (r: Option<Failure>)
      requires Valid() && previous in rows
      modifies this
      ensures Valid()
      ensures r.None? <==> !HasPending(old(rows))
      ensures r.Some? ==> rows == old(rows)
      ensures contracts == if r.None? then old(contracts)[|rows| := Contract(agreed, Some(user))] else old(contracts)
      ensures r.None? ==> |rows| == |old(rows)| + 1 && InForceAfter(old(rows), rows, |rows|, true)
    {
      r := CreateRevision(previous, agreed, user);
      if r.Some? { return; }
      assert Pends(rows, |rows|);
      r := Approve(|rows|);
    }

    /** The terms agreed are those the proposal states and, where it states none, the previous ones. */
    method Revise(company: nat, user: nat, previous: Version, p: Proposal)
        returns (r: Option<Failure>, version: Version)
      requires Valid()
      modifies this
      ensures Valid()
      ensures r.Some? ==> rows == old(rows) && contracts == old(contracts)
      ensures r.None? ==> old(MayRevise(company, previous, p.kind)) && !HasPending(old(rows))
      ensures old(MayRevise(company, previous, p.kind)) && !HasPending(old(rows)) ==>
                var base := old(contracts)[previous].terms;
                var from := if p.validFrom.Some? then p.validFrom.value else base.validFrom;
                var until := if p.validUntil.Some? then p.validUntil.value else base.validUntil;
                var rates := if p.rates != [] then p.rates else base.rates;
                && (r.None? <==> && from <= until && (p.kind == Renewal ==> base.validUntil < until)
                                 && rates != [] && forall i :: 0 <= i < |rates| ==> rates[i] >= 0.0)
                && (r.None? ==>
                      contracts == old(contracts)[version := Contract(Terms(from, until, rates), Some(user))])
      ensures r.None? ==> version == |old(rows)| + 1 == |rows|
      ensures r.None? ==> InForceAfter(old(rows), rows, version, p.kind == Renewal)
    {
      version := |rows| + 1;
      var agreed;
      r, agreed := CheckRevision(company, previous, p);
      if r.Some? { return; }
      if p.kind == Renewal {
        r := Renew(previous, agreed.value, user);
      } else {
        r := CreateRevision(previous, agreed.value, user);
      }
      if r.Some? { r := Some(Invalid); }
    }

    /** A pending revision is decided by the transporter's people, and never by who asked for it. */
    method Decide(company: nat, user: nat, v: Version, approve: bool) returns (r: Option<Failure>)
      requires Valid()
      modifies this`rows
      ensures Valid()
      ensures r.None? <==> && old(Pends(rows, v)) && company == transporter
                           && !(contracts[v].requestedBy == Some(user))
      ensures r.Some? ==> rows == old(rows)
      ensures r.None? && approve ==> forall w :: Lives(rows, w) <==> w == v
      ensures r.None? && !approve ==> v in rows && rows[v].status == AgreementRejected
      ensures r.None? && !approve ==> forall w :: Lives(rows, w) <==> Lives(old(rows), w)
    {
      if v !in rows || (company != shipper && company != transporter) { return Some(NotFound); }
      if company != transporter { return Some(Forbidden); }
      if contracts[v].requestedBy == Some(user) { return Some(Forbidden); }
      if approve { r := Approve(v); } else { r := Reject(v); }
      if r.Some? { r := Some(Invalid); }
    }

    method Reject(v: Version) returns (r: Option<Failure>)
      requires Valid()
      modifies this`rows
      ensures Valid()
      ensures r == if Pends(old(rows), v) then None else Some(Conflict)
      ensures rows == if r.None? then old(rows)[v := Row(AgreementRejected, false)] else old(rows)
    {
      if v !in rows || rows[v].status != PendingApproval { return Some(Conflict); }
      DecisionKeepsSound(rows, v, AgreementRejected);
      rows := WithStatus(rows, v, AgreementRejected);
      return None;
    }

    /** The sweep writes without looking again at the rows its list named. */
    method ExpireAll(stale: seq<Version>) returns (count: nat)
      requires Valid()
      modifies this`rows
      ensures Valid() && rows.Keys == old(rows.Keys)
      ensures forall v :: v in rows ==> rows[v] == if v in stale then old(rows)[v].(status := Expired) else old(rows)[v]
      ensures forall v :: Lives(rows, v) ==> Lives(old(rows), v)
    {
      count := 0;
      for i := 0 to |stale|
        invariant Sound(rows) && rows.Keys == old(rows.Keys)
        invariant forall v :: v in rows ==>
                  rows[v] == if v in stale[..i] then old(rows)[v].(status := Expired) else old(rows)[v]
      {
        if stale[i] in rows {
          DecisionKeepsSound(rows, stale[i], Expired);
          rows := WithStatus(rows, stale[i], Expired);
          count := count + 1;
        }
      }
      assert stale[..|stale|] == stale;
    }
  }
}
