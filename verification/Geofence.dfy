/** The geofence watcher: which crossings it reports, over ticks whose readings have gaps and whose
    reports may fail. */
module Geofence {
  import opened Status

  datatype FenceKey = FenceKey(shipment: nat, warehouse: string)

  /** One usable fix of one shipment against one fence, and whether reporting it would fail. */
  datatype Observation = Observation(key: FenceKey, within: bool, fails: bool)

  /** What one tick gets to see. */
  datatype Reading =
    | ListFailed
    | NothingActive
    | NoDevices // no active truck has a tracker
    | LiveFailed
    | Fixes(observations: seq<Observation>)

  /** What has happened: crossings recorded, and fences dropped from memory. */
  datatype Happening = Reported(key: FenceKey, within: bool) | Forgotten(keys: set<FenceKey>)

  datatype Watch = Watch(inside: map<FenceKey, bool>, log: seq<Happening>)

  predicate Crossed(was: bool, known: bool, within: bool) { if known then within != was else within }

  function Observed(w: Watch, o: Observation): Watch {
    var known := o.key in w.inside;
    var was := known && w.inside[o.key];
    if !Crossed(was, known, o.within) then w.(inside := w.inside[o.key := o.within])
    else if o.fails then w
    else Watch(w.inside[o.key := o.within], w.log + [Reported(o.key, o.within)])
  }

  function ObservedTo(w: Watch, os: seq<Observation>, n: nat): Watch
    requires n <= |os|
  {
    if n == 0 then w else Observed(ObservedTo(w, os, n - 1), os[n - 1])
  }

  function KeysTo(os: seq<Observation>, n: nat): set<FenceKey>
    requires n <= |os|
  {
    set i | 0 <= i < n :: os[i].key
  }

  function Kept(w: Watch, keep: set<FenceKey>): Watch {
    Watch(map k | k in w.inside && k in keep :: w.inside[k], w.log + [Forgotten(w.inside.Keys - keep)])
  }

  /** A tick that cannot see drops nothing; one that sees no active shipment drops everything. */
  function Ticked(w: Watch, r: Reading): Watch {
    match r
    case NothingActive => Kept(w, {})
    case Fixes(os) => if os == [] then Kept(w, {}) else Kept(ObservedTo(w, os, |os|), KeysTo(os, |os|))
    case _ => w
  }

  // ---- The watcher, in place -----------------------------------------------------------------

  class Watcher {
    var inside: map<FenceKey, bool>
    ghost var log: seq<Happening>

    ghost function View(): Watch reads this { Watch(inside, log) }

    constructor ()
      ensures View() == Watch(map[], [])
    {
      inside, log := map[], [];
    }

    method Forget(keep: set<FenceKey>)
      modifies this
      ensures View() == Kept(old(View()), keep)
    {
      ghost var was := inside;
      var left := inside.Keys;
      while left != {}
        invariant left <= was.Keys && log == old(log)
        invariant inside == map k | k in was && (k in keep || k in left) :: was[k]
        decreases |left|
      {
        var k :| k in left;
        if k !in keep { inside := inside - {k}; }
        left := left - {k};
      }
      log := log + [Forgotten(was.Keys - keep)];
    }

    /** The new side is stored before the report, and put back when the report fails. */
    method Observe(o: Observation)
      modifies this
      ensures View() == Observed(old(View()), o)
    {
      var known := o.key in inside;
      var was := known && inside[o.key];
      ghost var before := inside;
      inside := inside[o.key := o.within];
      if !Crossed(was, known, o.within) { return; }
      if o.fails {
        if known { inside := inside[o.key := was]; } else { inside := inside - {o.key}; }
        assert inside == before;
        return;
      }
      log := log + [Reported(o.key, o.within)];
    }

    method Tick(r: Reading)
      modifies this
      ensures View() == Ticked(old(View()), r)
    {
      match r
      case ListFailed => return;
      case NothingActive => Forget({});
      case NoDevices => return;
      case LiveFailed => return;
      case Fixes(os) =>
        var keep: set<FenceKey> := {};
        for i := 0 to |os|
          invariant View() == ObservedTo(old(View()), os, i) && keep == KeysTo(os, i)
        {
          keep := keep + {os[i].key};
          Observe(os[i]);
        }
        Forget(keep);
    }
  }

  // ---- What the log says ---------------------------------------------------------------------

  /** The side of a fence's last recorded crossing since it was last dropped; outside if none. */
  function LastSide(log: seq<Happening>, key: FenceKey): bool {
    if log == [] then false else SideAfter(log[|log| - 1], key, LastSide(log[..|log| - 1], key))
  }

  function SideAfter(h: Happening, key: FenceKey, before: bool): bool {
    match h
    case Reported(k, within) => if k == key then within else before
    case Forgotten(keys) => if key in keys then false else before
  }

  predicate Side(w: Watch, key: FenceKey) { key in w.inside && w.inside[key] }

  /** What is remembered is what the log says, and every crossing recorded was to the other side. */
  ghost predicate Faithful(w: Watch) {
    && (forall key :: Side(w, key) == LastSide(w.log, key))
    && (forall i :: 0 <= i < |w.log| && w.log[i].Reported? ==> w.log[i].within != LastSide(w.log[..i], w.log[i].key))
  }

  lemma LogGrows(log: seq<Happening>, h: Happening, key: FenceKey)
    ensures LastSide(log + [h], key) == SideAfter(h, key, LastSide(log, key))
  {
  }

  lemma EntryKeepsFaithful(w: Watch, v: Watch, h: Happening)
    requires Faithful(w) && v.log == w.log + [h]
    requires h.Reported? ==> h.within != LastSide(w.log, h.key)
    requires forall key :: Side(v, key) == SideAfter(h, key, Side(w, key))
    ensures Faithful(v)
  {
    forall key ensures Side(v, key) == LastSide(v.log, key) { LogGrows(w.log, h, key); }
    forall i | 0 <= i < |v.log| && v.log[i].Reported? ensures v.log[i].within != LastSide(v.log[..i], v.log[i].key) {
      if i < |w.log| { assert v.log[..i] == w.log[..i]; } else { assert v.log[..i] == w.log; }
    }
  }

  /** A crossing is recorded exactly when the fix is on the other side of the fence than the one last
      recorded, and the report goes through. */
  lemma ReportedIff(w: Watch, o: Observation)
    requires Faithful(w)
    ensures Faithful(Observed(w, o))
    ensures Observed(w, o).log == if o.within != LastSide(w.log, o.key)
            && !o.fails then w.log + [Reported(o.key, o.within)] else w.log
  {
    var v := Observed(w, o);
    assert Side(w, o.key) == LastSide(w.log, o.key);
    if v.log != w.log {
      EntryKeepsFaithful(w, v, Reported(o.key, o.within));
    } else {
      forall key ensures Side(v, key) == Side(w, key) {}
    }
  }

  lemma KeepingKeepsFaithful(w: Watch, keep: set<FenceKey>)
    requires Faithful(w)
    ensures Faithful(Kept(w, keep))
  {
    EntryKeepsFaithful(w, Kept(w, keep), Forgotten(w.inside.Keys - keep));
  }

  lemma {:induction false} ObservingKeepsFaithful(w: Watch, os: seq<Observation>, n: nat)
    requires Faithful(w) && n <= |os|
    ensures Faithful(ObservedTo(w, os, n))
  {
    if n > 0 {
      ObservingKeepsFaithful(w, os, n - 1);
      ReportedIff(ObservedTo(w, os, n - 1), os[n - 1]);
    }
  }

  function Run(w: Watch, readings: seq<Reading>): Watch
    decreases |readings|
  {
    if readings == [] then w else Run(Ticked(w, readings[0]), readings[1..])
  }

  /** Over any ticks, with any gaps and failures: the remembered side of a fence is that of its last
      recorded crossing since it was dropped, and every recorded crossing changed the side. */
  lemma {:induction false} MemoryIsFaithful(w: Watch, readings: seq<Reading>)
    requires Faithful(w)
    ensures Faithful(Run(w, readings))
    decreases |readings|
  {
    if readings != [] {
      match readings[0] {
        case NothingActive => KeepingKeepsFaithful(w, {});
        case Fixes(os) =>
          if os == [] {
            KeepingKeepsFaithful(w, {});
          } else {
            ObservingKeepsFaithful(w, os, |os|);
            KeepingKeepsFaithful(ObservedTo(w, os, |os|), KeysTo(os, |os|));
          }
        case _ =>
      }
      MemoryIsFaithful(Ticked(w, readings[0]), readings[1..]);
    }
  }

  predicate Concerns(h: Happening, key: FenceKey) {
    match h case Reported(k, _) => k == key case Forgotten(keys) => key in keys
  }

  lemma {:induction false} QuietKeepsSide(log: seq<Happening>, i: nat, j: nat, key: FenceKey)
    requires i <= j <= |log| && forall k :: i <= k < j ==> !Concerns(log[k], key)
    ensures LastSide(log[..j], key) == LastSide(log[..i], key)
    decreases j - i
  {
    if i < j {
      QuietKeepsSide(log, i, j - 1, key);
      assert log[..j][..j - 1] == log[..j - 1];
    }
  }

  /** Of one fence, two crossings recorded one after the other with no drop in between go opposite
      ways, and the first one after a drop, or of all, is an entry. */
  lemma CrossingsAlternate(w: Watch, i: nat, j: nat, key: FenceKey)
    requires Faithful(w) && i < j < |w.log| && Concerns(w.log[i], key) && w.log[j].Reported? && w.log[j].key == key
    requires forall k :: i < k < j ==> !Concerns(w.log[k], key)
    ensures w.log[j].within == (w.log[i].Forgotten? || !w.log[i].within)
  {
    QuietKeepsSide(w.log, i + 1, j, key);
    assert w.log[..i + 1] == w.log[..i] + [w.log[i]];
    LogGrows(w.log[..i], w.log[i], key);
  }

  lemma FirstCrossingIsAnEntry(w: Watch, j: nat)
    requires Faithful(w) && j < |w.log| && w.log[j].Reported?
    requires forall k :: 0 <= k < j ==> !Concerns(w.log[k], w.log[j].key)
    ensures w.log[j].within
  {
    QuietKeepsSide(w.log, 0, j, w.log[j].key);
  }

  /** Ticks that see one fix, and whose report fails. */
  function Failing(o: Observation, tries: nat): seq<Reading> {
    if tries == 0 then [] else [Fixes([o.(fails := true)])] + Failing(o, tries - 1)
  }

  lemma OneFixIsObserved(w: Watch, o: Observation)
    ensures Ticked(w, Fixes([o])) == Kept(Observed(w, o), {o.key})
  {
    var os := [o];
    assert ObservedTo(w, os, 0) == w;
    assert ObservedTo(w, os, 1) == Observed(w, o);
    assert KeysTo(os, 1) == {o.key} by { assert os[0].key in KeysTo(os, 1); }
  }

  lemma OneFix(w: Watch, o: Observation)
    requires Faithful(w) && o.within != LastSide(w.log, o.key)
    ensures Faithful(Ticked(w, Fixes([o])))
    ensures var log := Ticked(w, Fixes([o])).log;
            var dropped := Forgotten(Observed(w, o).inside.Keys - {o.key});
            log == w.log + (if o.fails then [dropped] else [Reported(o.key, o.within), dropped])
    ensures o.fails ==> LastSide(Ticked(w, Fixes([o])).log, o.key) == LastSide(w.log, o.key)
  {
    var seen := Observed(w, o);
    var dropped := Forgotten(seen.inside.Keys - {o.key});
    OneFixIsObserved(w, o);
    ReportedIff(w, o);
    KeepingKeepsFaithful(seen, {o.key});
    assert Kept(seen, {o.key}).log == seen.log + [dropped];
    LogGrows(seen.log, dropped, o.key);
  }

  /** Since `w`, nothing has been recorded, and this fence has not been dropped. */
  ghost predicate OnlyDropsOthers(w: Watch, v: Watch, key: FenceKey) {
    w.log <= v.log && forall i :: |w.log| <= i < |v.log| ==> v.log[i].Forgotten? && key !in v.log[i].keys
  }

  /** The fence's side is as it was, nothing has been recorded, and it has not been dropped. */
  ghost predicate StillTrying(w: Watch, v: Watch, key: FenceKey) {
    Faithful(v) && LastSide(v.log, key) == LastSide(w.log, key) && OnlyDropsOthers(w, v, key)
  }

  lemma TryingJoins(u: Watch, v: Watch, w: Watch, key: FenceKey)
    requires StillTrying(u, v, key) && StillTrying(v, w, key)
    ensures StillTrying(u, w, key)
  {
  }

  lemma FailingTick(w: Watch, o: Observation)
    requires Faithful(w) && o.within != LastSide(w.log, o.key) && o.fails
    ensures StillTrying(w, Ticked(w, Fixes([o])), o.key)
  {
    OneFix(w, o);
  }

  lemma {:induction false} FailingRecordsNothing(w: Watch, o: Observation, tries: nat)
    requires Faithful(w) && o.within != LastSide(w.log, o.key)
    ensures StillTrying(w, Run(w, Failing(o, tries)), o.key)
    decreases tries
  {
    if tries > 0 {
      var first := Fixes([o.(fails := true)]);
      var next := Ticked(w, first);
      FailingTick(w, o.(fails := true));
      FailingRecordsNothing(next, o, tries - 1);
      RunsJoin(w, [first], Failing(o, tries - 1));
      assert Run(w, [first]) == next by { assert [first][1..] == []; }
      TryingJoins(w, next, Run(next, Failing(o, tries - 1)), o.key);
    }
  }

  lemma {:induction false} RunsJoin(w: Watch, a: seq<Reading>, b: seq<Reading>)
    ensures Run(w, a + b) == Run(Run(w, a), b)
    decreases |a|
  {
    if a == [] {
      assert a + b == b;
    } else {
      assert (a + b)[1..] == a[1..] + b;
      RunsJoin(Ticked(w, a[0]), a[1..], b);
    }
  }

  /** A crossing whose report fails, tick after tick, is tried again at the next, and recorded once,
      at the first tick whose report goes through. */
  lemma {:induction false} FailedCrossingIsRetried(w: Watch, o: Observation, tries: nat)
    requires Faithful(w) && o.within != LastSide(w.log, o.key) && !o.fails
    ensures var v := Run(w, Failing(o, tries));
            var log := Run(w, Failing(o, tries) + [Fixes([o])]).log;
            && OnlyDropsOthers(w, v, o.key)
            && |log| == |v.log| + 2 && log[..|v.log| + 1] == v.log + [Reported(o.key, o.within)]
            && log[|v.log| + 1].Forgotten? && o.key !in log[|v.log| + 1].keys
  {
    FailingRecordsNothing(w, o, tries);
    var v := Run(w, Failing(o, tries));
    OneFix(v, o);
    RunsJoin(w, Failing(o, tries), [Fixes([o])]);
    assert [Fixes([o])][1..] == [];
    assert Run(v, [Fixes([o])]) == Ticked(v, Fixes([o]));
  }

  // ---- What a tick that sees nothing does ----------------------------------------------------

  /** The active shipments could not be listed, none of their trucks has a tracker, or no positions came. */
  predicate IsBlind(r: Reading) { r.ListFailed? || r.NoDevices? || r.LiveFailed? }

  /** A blind tick, wherever it falls, changes nothing that is ever remembered or reported. */
  lemma {:induction false} BlindTickChangesNothing(w: Watch, a: seq<Reading>, blind: Reading, b: seq<Reading>)
    requires IsBlind(blind)
    ensures Run(w, a + [blind] + b) == Run(w, a + b)
  {
    RunsJoin(w, a + [blind], b);
    RunsJoin(w, a, [blind]);
    RunsJoin(w, a, b);
    assert [blind][1..] == [];
  }

  /** A tick that sees keeps exactly the fences it has a fix for, among those remembered or entered: with
      nothing active, or no fix, it drops them all. */
  lemma {:induction false} OutOfSightIsDropped(w: Watch, r: Reading, key: FenceKey)
    requires !IsBlind(r)
    ensures key in Ticked(w, r).inside ==>
            r.Fixes? && exists i :: 0 <= i < |r.observations| && r.observations[i].key == key
    ensures key in w.inside && r.Fixes? && (exists i :: 0 <= i < |r.observations| && r.observations[i].key == key) ==>
              key in Ticked(w, r).inside
  {
    if r.Fixes? {
      if key in w.inside { ObservingForgetsNothing(w, r.observations, |r.observations|, key); }
      if i :| 0 <= i < |r.observations| && r.observations[i].key == key {
        assert r.observations[i].key in KeysTo(r.observations, |r.observations|);
      }
    }
  }

  lemma {:induction false} ObservingForgetsNothing(w: Watch, os: seq<Observation>, n: nat, key: FenceKey)
    requires n <= |os| && key in w.inside
    ensures key in ObservedTo(w, os, n).inside
  {
    if n > 0 { ObservingForgetsNothing(w, os, n - 1, key); }
  }

  // ---- What a whole tick reports -------------------------------------------------------------

  /** Since `before`, a crossing of this fence has been recorded, to this side. */
  ghost predicate Recorded(before: seq<Happening>, after: seq<Happening>, key: FenceKey, within: bool) {
    exists j :: |before| <= j < |after| && after[j] == Reported(key, within)
  }

  ghost predicate OneFixEach(os: seq<Observation>) {
    forall i, j :: 0 <= i < j < |os| ==> os[i].key != os[j].key
  }

  lemma OneMore(start: seq<Happening>, log: seq<Happening>, h: Happening, key: FenceKey, side: bool)
    requires start <= log
    ensures Recorded(start, log + [h], key, side) <==> Recorded(start, log, key, side) || h == Reported(key, side)
  {
    var after := log + [h];
    assert after[|log|] == h;
    if Recorded(start, log, key, side) {
      var j :| |start| <= j < |log| && log[j] == Reported(key, side);
      assert after[j] == Reported(key, side);
    }
  }

  lemma {:induction false} LogOnlyGrows(w: Watch, os: seq<Observation>, n: nat)
    requires n <= |os|
    ensures w.log <= ObservedTo(w, os, n).log
  {
    if n > 0 { LogOnlyGrows(w, os, n - 1); }
  }

  lemma {:induction false} UnseenKeepsSide(w: Watch, os: seq<Observation>, n: nat, key: FenceKey)
    requires n <= |os| && forall k :: 0 <= k < n ==> os[k].key != key
    ensures LastSide(ObservedTo(w, os, n).log, key) == LastSide(w.log, key)
  {
    if n > 0 {
      UnseenKeepsSide(w, os, n - 1, key);
      LogGrows(ObservedTo(w, os, n - 1).log, Reported(os[n - 1].key, os[n - 1].within), key);
    }
  }

  lemma {:induction false} ObservedSoFar(w: Watch, os: seq<Observation>, n: nat, i: nat, side: bool)
    requires Faithful(w) && OneFixEach(os) && n <= |os| && i < |os|
    ensures Recorded(w.log, ObservedTo(w, os, n).log, os[i].key, side) <==>
            i < n && side == os[i].within && os[i].within != LastSide(w.log, os[i].key) && !os[i].fails
  {
    if n > 0 {
      ObservedSoFar(w, os, n - 1, i, side);
      ObservationIsRecordedIff(w, os, n - 1);
      LogOnlyGrows(w, os, n - 1);
      OneMore(w.log, ObservedTo(w, os, n - 1).log, Reported(os[n - 1].key, os[n - 1].within), os[i].key, side);
    }
  }

  lemma ObservationIsRecordedIff(w: Watch, os: seq<Observation>, n: nat)
    requires Faithful(w) && OneFixEach(os) && n < |os|
    ensures var before, o := ObservedTo(w, os, n), os[n];
            ObservedTo(w, os, n + 1).log == if o.within != LastSide(w.log, o.key) && !o.fails
            then before.log + [Reported(o.key, o.within)] else before.log
  {
    ObservingKeepsFaithful(w, os, n);
    ReportedIff(ObservedTo(w, os, n), os[n]);
    UnseenKeepsSide(w, os, n, os[n].key);
  }

  /** A tick with one fix a fence records, of every fence, exactly the changes of side whose report goes
      through: no fence's reading depends on another's, on their order or on how others fail. */
  lemma {:induction false} TickRecordsIff(w: Watch, os: seq<Observation>, i: nat, side: bool)
    requires Faithful(w) && OneFixEach(os) && i < |os|
    ensures Recorded(w.log, Ticked(w, Fixes(os)).log, os[i].key, side) <==>
            side == os[i].within && os[i].within != LastSide(w.log, os[i].key) && !os[i].fails
  {
    ObservedSoFar(w, os, |os|, i, side);
    LogOnlyGrows(w, os, |os|);
    var v := ObservedTo(w, os, |os|);
    OneMore(w.log, v.log, Forgotten(v.inside.Keys - KeysTo(os, |os|)), os[i].key, side);
  }

  /** Losing sight of a truck for one tick drops its fences: still inside, it is recorded as entering
      once more. */
  lemma LostSightReportsAgain(w: Watch, key: FenceKey)
    requires Faithful(w) && Side(w, key)
    ensures Run(w, [Fixes([]), Fixes([Observation(key, true, false)])]).log
            == w.log + [Forgotten(w.inside.Keys), Reported(key, true), Forgotten({})]
  {
    var gone := Ticked(w, Fixes([]));
    assert gone == Watch(map[], w.log + [Forgotten(w.inside.Keys)]) by { assert w.inside.Keys - {} == w.inside.Keys; }
    var seen := [Observation(key, true, false)];
    assert ObservedTo(gone, seen, 0) == gone;
    var back := ObservedTo(gone, seen, 1);
    assert back == Watch(map[key := true], gone.log + [Reported(key, true)]);
    assert seen[0].key in KeysTo(seen, 1);
    assert KeysTo(seen, 1) == {key};
    assert back.inside.Keys - {key} == {};
    var later := [Fixes(seen)];
    assert [Fixes([]), Fixes(seen)][1..] == later && later[1..] == [];
    assert Run(gone, later) == Ticked(gone, Fixes(seen));
    assert Run(w, [Fixes([]), Fixes(seen)]) == Ticked(gone, Fixes(seen));
  }
}
