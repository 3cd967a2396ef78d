/** The visit-order planner: from an order's point lists, and the sequence a planner may have
    chosen, to numbered and paired stop rows. */
module Planner {
  import opened Status
  import opened Stops

  /** One entry of a visit order: a kind and a position in that kind's point list. */
  datatype StopRef = StopRef(kind: Kind, index: int)

  // ---- What a valid visit order is -----------------------------------------------------------

  function PointsOf(kind: Kind, n: nat): (points: seq<StopRef>)
    ensures |points| == n
    ensures forall i :: 0 <= i < n ==> points[i] == StopRef(kind, i)
  {
    if n == 0 then [] else PointsOf(kind, n - 1) + [StopRef(kind, n - 1)]
  }

  /** Every load, then every unload. */
  function DefaultOrder(loads: nat, unloads: nat): seq<StopRef> {
    PointsOf(Load, loads) + PointsOf(Unload, unloads)
  }

  predicate IsPoint(r: StopRef, loads: nat, unloads: nat) {
    0 <= r.index < if r.kind == Load then loads else unloads
  }

  /** A shipment that has both ends is loaded before it is unloaded. */
  ghost predicate LoadsFirst(plan: seq<StopRef>, loads: nat) {
    forall i :: 0 <= i < |plan| && plan[i].kind == Unload && plan[i].index < loads ==>
      StopRef(Load, plan[i].index) in plan[..i]
  }

  /** A permutation of all the points in which every load precedes its own unload. */
  ghost predicate IsVisitPlan(plan: seq<StopRef>, loads: nat, unloads: nat) {
    multiset(plan) == multiset(DefaultOrder(loads, unloads)) && LoadsFirst(plan, loads)
  }

  ghost predicate NamesPointsOnce(plan: seq<StopRef>, loads: nat, unloads: nat) {
    && (forall i :: 0 <= i < |plan| ==> IsPoint(plan[i], loads, unloads))
    && (forall i, j :: 0 <= i < j < |plan| ==> plan[i] != plan[j])
  }

  lemma {:induction false} OnceInDistinct(plan: seq<StopRef>, r: StopRef)
    requires forall i, j :: 0 <= i < j < |plan| ==> plan[i] != plan[j]
    ensures multiset(plan)[r] == if r in plan then 1 else 0
  {
    if plan != [] {
      var last := |plan| - 1;
      assert plan == plan[..last] + [plan[last]];
      OnceInDistinct(plan[..last], r);
      assert plan[last] !in plan[..last];
    }
  }

  lemma TwiceIsTwo(plan: seq<StopRef>, i: nat, j: nat)
    requires i < j < |plan| && plan[i] == plan[j]
    ensures multiset(plan)[plan[i]] >= 2
  {
    assert plan == plan[..j] + [plan[j]] + plan[j + 1..];
    assert plan[i] in plan[..j];
  }

  lemma DefaultHasEveryPoint(r: StopRef, loads: nat, unloads: nat)
    ensures multiset(DefaultOrder(loads, unloads))[r] == if IsPoint(r, loads, unloads) then 1 else 0
  {
    var d := DefaultOrder(loads, unloads);
    OnceInDistinct(d, r);
    if IsPoint(r, loads, unloads) { assert d[if r.kind == Load then r.index else loads + r.index] == r; }
  }

  /** By counting: as many distinct points as there are points are all of them. */
  lemma PermutationIff(plan: seq<StopRef>, loads: nat, unloads: nat)
    ensures multiset(plan) == multiset(DefaultOrder(loads, unloads))
       <==> |plan| == loads + unloads && NamesPointsOnce(plan, loads, unloads)
  {
    var d := DefaultOrder(loads, unloads);
    if |plan| == loads + unloads && NamesPointsOnce(plan, loads, unloads) {
      forall r ensures multiset(plan)[r] <= multiset(d)[r] {
        OnceInDistinct(plan, r);
        DefaultHasEveryPoint(r, loads, unloads);
      }
      assert |multiset(d) - multiset(plan)| == |multiset(d)| - |multiset(plan)| == 0;
    }
    if multiset(plan) == multiset(d) {
      assert |plan| == |multiset(plan)| == |d|;
      forall i | 0 <= i < |plan| ensures IsPoint(plan[i], loads, unloads) {
        DefaultHasEveryPoint(plan[i], loads, unloads);
        assert plan[i] in multiset(plan);
      }
      forall i, j | 0 <= i < j < |plan| ensures plan[i] != plan[j] {
        DefaultHasEveryPoint(plan[i], loads, unloads);
        if plan[i] == plan[j] { TwiceIsTwo(plan, i, j); }
      }
    }
  }

  // ---- The check -----------------------------------------------------------------------------

  datatype Fault =
    | WrongLength
    | LoadTwiceOrMissing(load: int)
    | UnloadTwiceOrMissing(unload: int)
    | UnloadBeforeLoad(shipment: int)

  /** What each refusal tells the planner about the sequence. */
  ghost predicate Explains(fault: Fault, plan: seq<StopRef>, loads: nat, unloads: nat) {
    match fault
    case WrongLength => |plan| != loads + unloads
    case LoadTwiceOrMissing(k) =>
      && StopRef(Load, k) in plan
      && (!IsPoint(StopRef(Load, k), loads, unloads) || multiset(plan)[StopRef(Load, k)] >= 2)
    case UnloadTwiceOrMissing(k) =>
      && StopRef(Unload, k) in plan
      && (!IsPoint(StopRef(Unload, k), loads, unloads) || multiset(plan)[StopRef(Unload, k)] >= 2)
    case UnloadBeforeLoad(k) =>
      k < loads && exists i :: 0 <= i < |plan| && plan[i] == StopRef(Unload, k) && StopRef(Load, k) !in plan[..i]
  }

  /** The positions of one kind the loop has seen. */
  ghost predicate Seen(seen: set<int>, kind: Kind, plan: seq<StopRef>) {
    forall k :: k in seen <==> StopRef(kind, k) in plan
  }

  lemma SeenOneMore(seen: set<int>, kind: Kind, plan: seq<StopRef>, n: nat)
    requires n < |plan| && Seen(seen, kind, plan[..n])
    ensures Seen(if plan[n].kind == kind then seen + {plan[n].index} else seen, kind, plan[..n + 1])
  {
  }

  /** The part of the sequence that has passed. */
  ghost predicate PassedTo(plan: seq<StopRef>, n: nat, loads: nat, unloads: nat) {
    n <= |plan| && NamesPointsOnce(plan[..n], loads, unloads) && LoadsFirst(plan[..n], loads)
  }

  predicate ComesTooEarly(plan: seq<StopRef>, n: nat, loads: nat)
    requires n < |plan|
  {
    plan[n].kind == Unload && plan[n].index < loads && StopRef(Load, plan[n].index) !in plan[..n]
  }

  lemma PassesOneMore(plan: seq<StopRef>, n: nat, loads: nat, unloads: nat)
    requires n < |plan| && PassedTo(plan, n, loads, unloads)
    requires IsPoint(plan[n], loads, unloads) && plan[n] !in plan[..n] && !ComesTooEarly(plan, n, loads)
    ensures PassedTo(plan, n + 1, loads, unloads)
  {
    forall i | 0 <= i <= n ensures plan[..n + 1][..i] == plan[..i] {}
    forall i | 0 <= i < n ensures plan[..n][..i] == plan[..i] {}
    forall i | 0 <= i < n ensures plan[..n][i] == plan[i] {}
  }

  ghost predicate Refuses(fault: Fault, plan: seq<StopRef>, loads: nat, unloads: nat) {
    !IsVisitPlan(plan, loads, unloads) && Explains(fault, plan, loads, unloads)
  }

  lemma RepeatedIsRefused(plan: seq<StopRef>, n: nat, loads: nat, unloads: nat)
    requires n < |plan| && (!IsPoint(plan[n], loads, unloads) || plan[n] in plan[..n])
    ensures Refuses(if plan[n].kind == Load then LoadTwiceOrMissing(plan[n].index)
            else UnloadTwiceOrMissing(plan[n].index), plan, loads, unloads)
  {
    PermutationIff(plan, loads, unloads);
    if plan[n] in plan[..n] {
      var i :| 0 <= i < n && plan[..n][i] == plan[n];
      TwiceIsTwo(plan, i, n);
    }
  }

  lemma TooEarlyIsRefused(plan: seq<StopRef>, n: nat, loads: nat, unloads: nat)
    requires n < |plan| && ComesTooEarly(plan, n, loads)
    ensures Refuses(UnloadBeforeLoad(plan[n].index), plan, loads, unloads)
  {
  }

  lemma WrongLengthIsRefused(plan: seq<StopRef>, loads: nat, unloads: nat)
    requires |plan| != loads + unloads
    ensures Refuses(WrongLength, plan, loads, unloads)
  {
  }

  lemma PassedIsAPlan(plan: seq<StopRef>, loads: nat, unloads: nat)
    requires |plan| == loads + unloads && PassedTo(plan, |plan|, loads, unloads)
    ensures IsVisitPlan(plan, loads, unloads)
  {
    PermutationIff(plan, loads, unloads);
    assert plan[..|plan|] == plan;
  }

  /** A sequence is accepted exactly when it is a valid visit order; a refusal names a real fault. */
  method ValidateSequence(plan: seq<StopRef>, loads: nat, unloads: nat) returns (fault: Option<Fault>)
    ensures fault.None? <==> IsVisitPlan(plan, loads, unloads)
    ensures fault.Some? ==> Explains(fault.value, plan, loads, unloads)
  {
    if |plan| != loads + unloads {
      WrongLengthIsRefused(plan, loads, unloads);
      return Some(WrongLength);
    }
    var seenLoad: set<int>, seenUnload: set<int> := {}, {};
    for n := 0 to |plan|
      invariant Seen(seenLoad, Load, plan[..n]) && Seen(seenUnload, Unload, plan[..n])
      invariant PassedTo(plan, n, loads, unloads)
    {
      var r := plan[n];
      SeenOneMore(seenLoad, Load, plan, n);
      SeenOneMore(seenUnload, Unload, plan, n);
      if r.kind == Load {
        if r.index < 0 || r.index >= loads || r.index in seenLoad {
          RepeatedIsRefused(plan, n, loads, unloads);
          return Some(LoadTwiceOrMissing(r.index));
        }
        seenLoad := seenLoad + {r.index};
      } else {
        if r.index < 0 || r.index >= unloads || r.index in seenUnload {
          RepeatedIsRefused(plan, n, loads, unloads);
          return Some(UnloadTwiceOrMissing(r.index));
        }
        seenUnload := seenUnload + {r.index};
        if r.index < loads && r.index !in seenLoad {
          TooEarlyIsRefused(plan, n, loads, unloads);
          return Some(UnloadBeforeLoad(r.index));
        }
      }
      PassesOneMore(plan, n, loads, unloads);
    }
    PassedIsAPlan(plan, loads, unloads);
    fault := None;
  }

  // ---- The order the points are visited in ---------------------------------------------------

  lemma DefaultIsAPlan(loads: nat, unloads: nat)
    ensures IsVisitPlan(DefaultOrder(loads, unloads), loads, unloads)
  {
    var d := DefaultOrder(loads, unloads);
    forall i | 0 <= i < |d| && d[i].kind == Unload && d[i].index < loads ensures StopRef(Load, d[i].index) in d[..i] {
      assert d[..i][d[i].index] == StopRef(Load, d[i].index);
    }
  }

  /** The stored choice when it is a valid visit order, every load and then every unload otherwise. */
  ghost function ChosenOrder(stored: seq<StopRef>, loads: nat, unloads: nat): (plan: seq<StopRef>)
    ensures IsVisitPlan(plan, loads, unloads)
    ensures IsVisitPlan(stored, loads, unloads) ==> plan == stored || loads + unloads == 0
  {
    DefaultIsAPlan(loads, unloads);
    PermutationIff(stored, loads, unloads);
    if stored != [] && IsVisitPlan(stored, loads, unloads) then stored else DefaultOrder(loads, unloads)
  }

  method VisitOrder(stored: seq<StopRef>, loads: nat, unloads: nat) returns (plan: seq<StopRef>)
    ensures plan == ChosenOrder(stored, loads, unloads)
  {
    plan := DefaultOrder(loads, unloads);
    if stored == [] { return; }
    var fault := ValidateSequence(stored, loads, unloads);
    if fault.None? { plan := stored; }
  }

  /** What a valid visit order promises: every point has one place, and a shipment that has both
      ends is loaded before it is unloaded. */
  lemma PlanHasEveryPointOnce(plan: seq<StopRef>, loads: nat, unloads: nat, r: StopRef)
    requires IsVisitPlan(plan, loads, unloads)
    ensures IsPoint(r, loads, unloads) <==> r in plan
    ensures forall i, j :: 0 <= i < |plan| && 0 <= j < |plan| && plan[i] == plan[j] ==> i == j
    ensures |plan| == loads + unloads
  {
    PermutationIff(plan, loads, unloads);
    DefaultHasEveryPoint(r, loads, unloads);
    assert r in plan <==> r in multiset(plan);
  }

  lemma LoadComesBeforeItsUnload(plan: seq<StopRef>, loads: nat, unloads: nat, i: nat, j: nat)
    requires IsVisitPlan(plan, loads, unloads) && i < |plan| && j < |plan|
    requires plan[i].kind == Load && plan[j] == StopRef(Unload, plan[i].index)
    ensures i < j
  {
    PlanHasEveryPointOnce(plan, loads, unloads, plan[i]);
    var k :| 0 <= k < j && plan[..j][k] == StopRef(Load, plan[j].index);
    assert plan[k] == plan[i];
  }

  lemma StartsWithLoad(plan: seq<StopRef>, loads: nat, unloads: nat)
    requires IsVisitPlan(plan, loads, unloads) && loads > 0 && unloads <= loads
    ensures |plan| > 0 && plan[0].kind == Load
  {
    PlanHasEveryPointOnce(plan, loads, unloads, StopRef(Load, 0));
    PlanHasEveryPointOnce(plan, loads, unloads, plan[0]);
  }

  lemma SpareUnloadKeepsLoadsFirst(u: StopRef, rest: seq<StopRef>, loads: nat)
    requires LoadsFirst(rest, loads) && u.kind == Unload && u.index >= loads
    ensures LoadsFirst([u] + rest, loads)
  {
    var plan := [u] + rest;
    forall i | 0 <= i < |plan| && plan[i].kind == Unload && plan[i].index < loads
      ensures StopRef(Load, plan[i].index) in plan[..i]
    {
      assert plan[i] == rest[i - 1] && plan[..i] == [u] + rest[..i - 1];
    }
  }

  /** The last unloading point, when no loading point is paired with it, may be visited first. */
  lemma SpareUnloadMayComeFirst(loads: nat, unloads: nat) returns (plan: seq<StopRef>)
    requires unloads > loads
    ensures IsVisitPlan(plan, loads, unloads) && |plan| > 0 && plan[0].kind == Unload
  {
    var last, rest := StopRef(Unload, unloads - 1), DefaultOrder(loads, unloads - 1);
    plan := [last] + rest;
    assert DefaultOrder(loads, unloads) == rest + [last];
    DefaultIsAPlan(loads, unloads - 1);
    SpareUnloadKeepsLoadsFirst(last, rest, loads);
  }

  /** A journey surely starts with a loading point exactly when it has no more unloading points than
      loading points. */
  lemma {:induction false} StartsWithLoadIff(loads: nat, unloads: nat)
    requires loads > 0
    ensures unloads <= loads <==>
            forall plan: seq<StopRef> :: IsVisitPlan(plan, loads, unloads) ==> |plan| > 0 && plan[0].kind == Load
  {
    if unloads <= loads {
      forall plan: seq<StopRef> | IsVisitPlan(plan, loads, unloads) ensures |plan| > 0 && plan[0].kind == Load {
        StartsWithLoad(plan, loads, unloads);
      }
    } else {
      var plan := SpareUnloadMayComeFirst(loads, unloads);
    }
  }

  // ---- The order's own detail ----------------------------------------------------------------

  datatype Item = Text(text: string) | NotText

  /** One element of a stored sequence, as decoded JSON. */
  datatype Entry = Entry(kind: Item, index: Option<real>) | NotAnObject

  datatype Detail = Detail(
    loadingPoints: Option<seq<Item>>, unloadingPoints: Option<seq<Item>>, stopSequence: Option<seq<Entry>>)

  datatype PlannedOrder = PlannedOrder(detail: Detail, origin: Option<string>, destination: Option<string>)

  function KindNamed(kind: Item): Option<Kind> {
    if kind == Text("muat") || kind == Text("load") then Some(Load)
    else if kind == Text("bongkar") || kind == Text("unload") then Some(Unload)
    else None
  }

  /** A JSON number is cut off towards zero. */
  function Truncated(x: real): int { if x >= 0.0 then x.Floor else -((-x).Floor) }

  predicate IsReadable(e: Entry) { e.Entry? && KindNamed(e.kind).Some? && e.index.Some? }

  function ReadEntry(e: Entry): StopRef
    requires IsReadable(e)
  {
    StopRef(KindNamed(e.kind).value, Truncated(e.index.value))
  }

  /** The stored choice; none when it is absent or any entry of it cannot be read. */
  function StoredSequence(entries: Option<seq<Entry>>): (refs: seq<StopRef>)
    ensures refs != [] ==> entries.Some? && |refs| == |entries.value|
    ensures refs != [] ==> forall i :: 0 <= i < |refs| ==>
            IsReadable(entries.value[i]) && refs[i] == ReadEntry(entries.value[i])
  {
    if entries.None? then [] else match ReadAll(entries.value) case None => [] case Some(refs) => refs
  }

  function ReadAll(entries: seq<Entry>): (refs: Option<seq<StopRef>>)
    ensures refs.Some? <==> forall i :: 0 <= i < |entries| ==> IsReadable(entries[i])
    ensures refs.Some? ==> |refs.value| == |entries| && forall i :: 0 <= i < |entries| ==>
            refs.value[i] == ReadEntry(entries[i])
  {
    if entries == [] then Some([])
    else if !IsReadable(entries[0]) then None
    else match ReadAll(entries[1..])
      case None => None
      case Some(rest) => Some([ReadEntry(entries[0])] + rest)
  }

  function WriteEntry(r: StopRef): Entry {
    Entry(Text(if r.kind == Load then "muat" else "bongkar"), Some(r.index as real))
  }

  /** A sequence as the console writes it. */
  function Written(plan: seq<StopRef>): (entries: seq<Entry>)
    ensures |entries| == |plan| && forall i :: 0 <= i < |plan| ==> entries[i] == WriteEntry(plan[i])
  {
    if plan == [] then [] else [WriteEntry(plan[0])] + Written(plan[1..])
  }

  lemma WrittenReadsBack(plan: seq<StopRef>)
    ensures StoredSequence(Some(Written(plan))) == plan
  {
  }

  /** The named points of a list: blank entries and entries of another type are passed over. */
  function Names(items: seq<Item>): (names: seq<string>)
    ensures "" !in names
  {
    if items == [] then []
    else if items[0].Text? && items[0].text != "" then [items[0].text] + Names(items[1..])
    else Names(items[1..])
  }

  function WarehouseList(items: Option<seq<Item>>): seq<string> {
    if items.None? then [] else Names(items.value)
  }

  function Fallback(list: seq<string>, column: Option<string>): seq<string> {
    if list == [] && column.Some? then [column.value] else list
  }

  function LoadsOf(order: PlannedOrder): seq<string> {
    Fallback(WarehouseList(order.detail.loadingPoints), order.origin)
  }

  function UnloadsOf(order: PlannedOrder): seq<string> {
    Fallback(WarehouseList(order.detail.unloadingPoints), order.destination)
  }

  // ---- The stop rows -------------------------------------------------------------------------

  const MAX_STOPS := 200

  datatype Row = Row(seqNo: nat, shipmentNo: nat, kind: Kind, warehouse: string)

  function StopNo(n: int): nat { if n < 1 then 1 else if n > MAX_STOPS then MAX_STOPS else n }

  function Warehouse(r: StopRef, loads: seq<string>, unloads: seq<string>): string {
    var names := if r.kind == Load then loads else unloads;
    if 0 <= r.index < |names| then names[r.index] else ""
  }

  /** The rows of the first n points of a plan. */
  function Rows(plan: seq<StopRef>, n: nat, loads: seq<string>, unloads: seq<string>): (rows: seq<Row>)
    requires n <= |plan|
    ensures |rows| <= MAX_STOPS && |rows| <= n
  {
    if n == 0 then []
    else
      var rows := Rows(plan, n - 1, loads, unloads);
      var r := plan[n - 1];
      var name := Warehouse(r, loads, unloads);
      if name == "" || |rows| >= MAX_STOPS then rows
      else rows + [Row(StopNo(|rows| + 1), StopNo(r.index + 1), r.kind, name)]
  }

  ghost function PlanOf(order: PlannedOrder): (plan: seq<StopRef>)
    ensures IsVisitPlan(plan, |LoadsOf(order)|, |UnloadsOf(order)|)
  {
    ChosenOrder(StoredSequence(order.detail.stopSequence), |LoadsOf(order)|, |UnloadsOf(order)|)
  }

  ghost function RowsOf(order: PlannedOrder): seq<Row> {
    if LoadsOf(order) == [] || UnloadsOf(order) == [] then []
    else Rows(PlanOf(order), |PlanOf(order)|, LoadsOf(order), UnloadsOf(order))
  }

  lemma {:induction false} FullRowsStay(plan: seq<StopRef>, m: nat, n: nat, loads: seq<string>, unloads: seq<string>)
    requires m <= n <= |plan| && |Rows(plan, m, loads, unloads)| >= MAX_STOPS
    ensures Rows(plan, n, loads, unloads) == Rows(plan, m, loads, unloads)
    decreases n - m
  {
    if m < n { FullRowsStay(plan, m, n - 1, loads, unloads); }
  }

  method BuildRows(plan: seq<StopRef>, loads: seq<string>, unloads: seq<string>) returns (rows: seq<Row>)
    ensures rows == Rows(plan, |plan|, loads, unloads)
  {
    rows := [];
    for n := 0 to |plan|
      invariant rows == Rows(plan, n, loads, unloads)
    {
      var ref := plan[n];
      var name := Warehouse(ref, loads, unloads);
      if name != "" {
        if |rows| >= MAX_STOPS {
          FullRowsStay(plan, n, |plan|, loads, unloads);
          return;
        }
        rows := rows + [Row(StopNo(|rows| + 1), StopNo(ref.index + 1), ref.kind, name)];
      }
    }
  }

  method StopsForOrder(order: PlannedOrder) returns (rows: seq<Row>)
    ensures rows == RowsOf(order)
  {
    var loads, unloads := LoadsOf(order), UnloadsOf(order);
    if loads == [] || unloads == [] { return []; }
    var plan := VisitOrder(StoredSequence(order.detail.stopSequence), |loads|, |unloads|);
    rows := BuildRows(plan, loads, unloads);
  }

  // ---- What the rows promise -----------------------------------------------------------------

  function RowAt(plan: seq<StopRef>, i: nat, loads: seq<string>, unloads: seq<string>): Row
    requires i < |plan|
  {
    Row(StopNo(i + 1), StopNo(plan[i].index + 1), plan[i].kind, Warehouse(plan[i], loads, unloads))
  }

  /** With no blank name, the rows are the first two hundred points of the plan, in its order. */
  lemma {:induction false} RowsFollowPlan(plan: seq<StopRef>, n: nat, loads: seq<string>, unloads: seq<string>)
    requires n <= |plan| && "" !in loads && "" !in unloads
    requires forall i :: 0 <= i < |plan| ==> IsPoint(plan[i], |loads|, |unloads|)
    ensures var rows := Rows(plan, n, loads, unloads);
            && |rows| == (if n < MAX_STOPS then n else MAX_STOPS)
            && forall i :: 0 <= i < |rows| ==> rows[i] == RowAt(plan, i, loads, unloads)
  {
    if n > 0 {
      RowsFollowPlan(plan, n - 1, loads, unloads);
      assert Warehouse(plan[n - 1], loads, unloads) != "";
    }
  }

  /** The rows of a journey whose points are all named: the first two hundred points of a plan. */
  ghost predicate PlannedRows(rows: seq<Row>, plan: seq<StopRef>, loads: seq<string>, unloads: seq<string>) {
    && IsVisitPlan(plan, |loads|, |unloads|) && "" !in loads && "" !in unloads
    && rows == Rows(plan, |plan|, loads, unloads)
  }

  lemma RowsOfAPlan(rows: seq<Row>, plan: seq<StopRef>, loads: seq<string>, unloads: seq<string>)
    requires PlannedRows(rows, plan, loads, unloads)
    ensures |plan| == |loads| + |unloads| && |rows| == if |plan| < MAX_STOPS then |plan| else MAX_STOPS
    ensures forall i :: 0 <= i < |rows| ==>
            rows[i] == RowAt(plan, i, loads, unloads) && IsPoint(plan[i], |loads|, |unloads|)
    ensures forall i, j :: 0 <= i < |rows| && 0 <= j < |rows| && plan[i] == plan[j] ==> i == j
  {
    PermutationIff(plan, |loads|, |unloads|);
    RowsFollowPlan(plan, |plan|, loads, unloads);
  }

  /** Rows are numbered 1, 2, 3 and so on; with neither list over two hundred points, however long
      the two are together, each row says exactly which point of which shipment it is. */
  lemma RowsReadBack(rows: seq<Row>, plan: seq<StopRef>, loads: seq<string>, unloads: seq<string>, i: nat)
    requires PlannedRows(rows, plan, loads, unloads) && i < |rows|
    requires |loads| <= MAX_STOPS && |unloads| <= MAX_STOPS
    ensures rows[i].seqNo == i + 1
    ensures StopRef(rows[i].kind, rows[i].shipmentNo - 1) == plan[i]
    ensures IsPoint(plan[i], |loads|, |unloads|) && rows[i].warehouse == Warehouse(plan[i], loads, unloads)
    ensures forall j :: 0 <= j < |rows| && rows[j].kind == rows[i].kind && rows[j].shipmentNo == rows[i].shipmentNo ==>
            j == i
    ensures rows[i].kind == Load ==>
              forall j :: 0 <= j < |rows| && rows[j].kind == Unload && rows[j].shipmentNo == rows[i].shipmentNo ==>
                i < j
  {
    RowsOfAPlan(rows, plan, loads, unloads);
    forall j | 0 <= j < |rows| ensures StopRef(rows[j].kind, rows[j].shipmentNo - 1) == plan[j] {}
    forall j | 0 <= j < |rows| && rows[i].kind == Load && rows[j].kind == Unload
        && rows[j].shipmentNo == rows[i].shipmentNo
      ensures i < j
    {
      LoadComesBeforeItsUnload(plan, |loads|, |unloads|, i, j);
    }
  }

  /** Up to two hundred points in all, nothing is left out: every point of the lists has its row. */
  lemma EveryPointHasItsRow(rows: seq<Row>, plan: seq<StopRef>, loads: seq<string>, unloads: seq<string>, r: StopRef)
    requires PlannedRows(rows, plan, loads, unloads) && |loads| + |unloads| <= MAX_STOPS
    requires IsPoint(r, |loads|, |unloads|)
    ensures exists i :: 0 <= i < |rows| && rows[i] == Row(i + 1, r.index + 1, r.kind, Warehouse(r, loads, unloads))
  {
    RowsOfAPlan(rows, plan, loads, unloads);
    PlanHasEveryPointOnce(plan, |loads|, |unloads|, r);
    var i :| 0 <= i < |plan| && plan[i] == r;
    assert rows[i] == RowAt(plan, i, loads, unloads);
  }

  /** Past two hundred points of one kind the clamp merges shipments: two rows carry the same kind
      and number exactly when both stand at position two hundred or later of their list. */
  lemma RowsShareNumberIff(rows: seq<Row>, plan: seq<StopRef>, loads: seq<string>, unloads: seq<string>, i: nat, j: nat)
    requires PlannedRows(rows, plan, loads, unloads) && i < j < |rows|
    ensures rows[i].kind == rows[j].kind && rows[i].shipmentNo == rows[j].shipmentNo
       <==> plan[i].kind == plan[j].kind && plan[i].index >= MAX_STOPS - 1 && plan[j].index >= MAX_STOPS - 1
  {
    RowsOfAPlan(rows, plan, loads, unloads);
    assert plan[i] != plan[j];
  }

  /** The edge checks a choice against the lists, the planner against the lists or the order's two
      columns: an accepted choice is the one used exactly when no column had to stand in. */
  lemma AcceptedChoiceIsUsedIff(order: PlannedOrder)
    requires LoadsOf(order) != [] && UnloadsOf(order) != []
    requires StoredSequence(order.detail.stopSequence) != []
    requires IsVisitPlan(StoredSequence(order.detail.stopSequence), |WarehouseList(order.detail.loadingPoints)|,
             |WarehouseList(order.detail.unloadingPoints)|)
    ensures PlanOf(order) == StoredSequence(order.detail.stopSequence)
       <==> WarehouseList(order.detail.loadingPoints) != [] && WarehouseList(order.detail.unloadingPoints) != []
  {
  }

  // ---- An order's own rows -------------------------------------------------------------------

  /** Whatever an order carries, its rows are those of a plan, unless a blank column stands in. */
  lemma OrderRowsArePlanned(order: PlannedOrder)
    requires LoadsOf(order) != [] && UnloadsOf(order) != []
    ensures PlannedRows(RowsOf(order), PlanOf(order), LoadsOf(order), UnloadsOf(order))
       <==> LoadsOf(order) != [""] && UnloadsOf(order) != [""]
  {
  }

  /** A row is made of a named point of its kind's list. */
  lemma {:induction false} RowsAreNamed(plan: seq<StopRef>, n: nat, loads: seq<string>, unloads: seq<string>, i: nat)
    requires n <= |plan| && i < |Rows(plan, n, loads, unloads)|
    ensures var row := Rows(plan, n, loads, unloads)[i];
            row.warehouse != "" && row.warehouse in (if row.kind == Load then loads else unloads)
  {
    if i < |Rows(plan, n - 1, loads, unloads)| { RowsAreNamed(plan, n - 1, loads, unloads, i); }
  }
}
