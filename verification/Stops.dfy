/** One point of a journey (OrderStop in internal/models/dispatch.go) and the ways the services
    look a point up in a list read in visit order. */
module Stops {
  import opened Status

  type StopId = nat
  type PodId = nat
  type Time = nat

  datatype Kind = Load | Unload

  datatype Stop = Stop(
    id: StopId, seqNo: nat, kind: Kind, shipmentNo: nat, warehouse: string,
    arrivedAt: Option<Time>, startedAt: Option<Time>, finishedAt: Option<Time>,
    cargoCheckedAt: Option<Time>, podId: Option<PodId>)
  {
    predicate Visited() { arrivedAt.Some? || finishedAt.Some? }
  }

  ghost predicate DistinctIds(stops: seq<Stop>) {
    forall i, j :: 0 <= i < j < |stops| ==> stops[i].id != stops[j].id
  }

  /** The row with this id, from position i on; -1 when there is none. */
  function IndexOf(stops: seq<Stop>, id: StopId, i: nat := 0): (at: int)
    requires i <= |stops|
    ensures at < 0 ==> forall k :: i <= k < |stops| ==> stops[k].id != id
    ensures at >= 0 ==> i <= at < |stops| && stops[at].id == id
    decreases |stops| - i
  {
    if i == |stops| then -1
    else if stops[i].id == id then i
    else IndexOf(stops, id, i + 1)
  }

  /** The first unfinished point of one kind; -1 when every one of them is finished. */
  function FirstOpen(stops: seq<Stop>, kind: Kind, i: nat := 0): (at: int)
    requires i <= |stops|
    ensures at < 0 ==> forall k :: i <= k < |stops| && stops[k].kind == kind ==> stops[k].finishedAt.Some?
    ensures at >= 0 ==> i <= at < |stops| && stops[at].kind == kind && stops[at].finishedAt.None?
    decreases |stops| - i
  {
    if i == |stops| then -1
    else if stops[i].kind == kind && stops[i].finishedAt.None? then i
    else FirstOpen(stops, kind, i + 1)
  }

  /** The earliest point of one kind in visit order; -1 when the journey has none. */
  function FirstOfKind(stops: seq<Stop>, kind: Kind, i: nat := 0): (at: int)
    requires i <= |stops|
    ensures at < 0 ==> forall k :: i <= k < |stops| ==> stops[k].kind != kind
    ensures at >= 0 ==> i <= at < |stops| && stops[at].kind == kind
    ensures at >= 0 ==> forall k :: i <= k < at ==> stops[k].kind != kind
    decreases |stops| - i
  {
    if i == |stops| then -1
    else if stops[i].kind == kind then i
    else FirstOfKind(stops, kind, i + 1)
  }
}
