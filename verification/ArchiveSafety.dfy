/** What every run of the archiver keeps, wherever it dies, and where two chunks of one run lose it. */
module ArchiveSafety {
  import opened Status
  import opened Archive

  // ---- Nothing is lost -----------------------------------------------------------------------

  /** The files an entry names give back exactly these rows. */
  ghost predicate Yields(v: Vault, entry: Entry, id: Id, agg: Aggregate) {
    && |agg| == v.tables && entry.counts == Counts(agg, v.tables)
    && (forall t :: 0 <= t < v.tables && agg[t] != [] ==>
          Key(t, entry.stamp) in v.objects && Decode(v.objects[Key(t, entry.stamp)], id) == agg[t])
    && (Key(0, entry.stamp) in v.objects && v.objects[Key(0, entry.stamp)] == entry.checksum)
  }

  ghost predicate WellFormed(tables: nat, agg: Aggregate) { tables > 0 && |agg| == tables && |agg[0]| == 1 }

  /** Every aggregate there ever was is hot, or else in the catalogue, unrestored, with files that
      yield exactly its rows; never both. */
  ghost predicate KeptOne(content: map<Id, Aggregate>, v: Vault, id: Id)
    requires id in content
  {
    && WellFormed(v.tables, content[id])
    && if id in v.hot then v.hot[id] == content[id] && !Catalogued(v, id)
       else Catalogued(v, id) && Yields(v, v.catalog[id], id, content[id])
  }

  ghost predicate Kept(content: map<Id, Aggregate>, v: Vault) {
    && v.tables > 0 && v.hot.Keys <= content.Keys && v.catalog.Keys <= content.Keys
    && forall id :: id in content ==> KeptOne(content, v, id)
  }

  ghost predicate Distinct(ids: seq<Id>) { forall i, j :: 0 <= i < j < |ids| ==> ids[i] != ids[j] }

  /** No catalogue row has files of this day and run. */
  ghost predicate FreshStamp(v: Vault, stamp: Stamp) {
    forall id :: id in v.catalog ==> v.catalog[id].stamp != stamp
  }

  /** A chunk as the candidate query makes it: distinct ids of hot aggregates, under a
      name no chunk has had: a new run, or another day of the same. */
  ghost predicate CleanChunk(v: Vault, ids: seq<Id>, stamp: Stamp) {
    Distinct(ids) && (forall i :: 0 <= i < |ids| ==> ids[i] in v.hot) && FreshStamp(v, stamp)
  }

  lemma CleanIsReadable(content: map<Id, Aggregate>, v: Vault, ids: seq<Id>, stamp: Stamp)
    requires Kept(content, v) && CleanChunk(v, ids, stamp)
    ensures Readable(v, ids) && forall i :: 0 <= i < |ids| ==> !Catalogued(v, ids[i])
  {
  }

  lemma GatheredStep(v: Vault, ids: seq<Id>, n: nat, t: nat, id: Id)
    requires 0 < n <= |ids| && t < v.tables && Readable(v, ids) && !Catalogued(v, ids[n - 1])
    ensures HasRoot(v, ids[n - 1])
    ensures Decode(Gathered(v, ids, n, t), id)
            == Decode(Gathered(v, ids, n - 1, t), id) + (if ids[n - 1] == id then v.hot[ids[n - 1]][t] else [])
  {
    DecodeEncode(ids[n - 1], v.hot[ids[n - 1]][t], id);
    DecodeJoins(Gathered(v, ids, n - 1, t), Encode(ids[n - 1], v.hot[ids[n - 1]][t]), id);
  }

  lemma {:induction false} OthersAreNotGathered(v: Vault, ids: seq<Id>, n: nat, t: nat, id: Id)
    requires n <= |ids| && t < v.tables && Readable(v, ids) && id !in ids[..n]
    requires forall k :: 0 <= k < |ids| ==> !Catalogued(v, ids[k])
    ensures Decode(Gathered(v, ids, n, t), id) == []
  {
    if n > 0 {
      assert ids[..n] == ids[..n - 1] + [ids[n - 1]];
      OthersAreNotGathered(v, ids, n - 1, t, id);
      GatheredStep(v, ids, n, t, id);
    }
  }

  /** Out of the chunk's file of a table, each aggregate reads exactly its own rows. */
  lemma {:induction false} GatheredYields(v: Vault, ids: seq<Id>, n: nat, t: nat, i: nat)
    requires i < n <= |ids| && t < v.tables && Readable(v, ids) && Distinct(ids)
    requires forall k :: 0 <= k < |ids| ==> !Catalogued(v, ids[k])
    ensures HasRoot(v, ids[i]) && Decode(Gathered(v, ids, n, t), ids[i]) == v.hot[ids[i]][t]
  {
    if i == n - 1 {
      OthersAreNotGathered(v, ids, i, t, ids[i]);
    } else {
      GatheredYields(v, ids, n - 1, t, i);
    }
    GatheredStep(v, ids, n, t, ids[i]);
  }

  lemma {:induction false} FilesTouchOwn(v: Vault, ids: seq<Id>, stamp: Stamp, k: nat)
    requires k <= v.tables && Readable(v, ids)
    ensures var w := FilesTo(v, ids, stamp, k);
            && w.hot == v.hot && w.catalog == v.catalog && w.tables == v.tables
            && (forall key: Key :: key.stamp != stamp || key.table >= k ==>
                  (key in w.objects <==> key in v.objects) && (key in v.objects ==> w.objects[key] == v.objects[key]))
  {
    if k > 0 { FilesTouchOwn(v, ids, stamp, k - 1); }
  }

  lemma {:induction false} FileStands(v: Vault, ids: seq<Id>, stamp: Stamp, k: nat, t: nat)
    requires t < k <= v.tables && Readable(v, ids) && Contents(v, ids, t) != []
    ensures var w := FilesTo(v, ids, stamp, k);
            Key(t, stamp) in w.objects && w.objects[Key(t, stamp)] == Contents(v, ids, t)
  {
    if t < k - 1 { FileStands(v, ids, stamp, k - 1, t); }
  }

  /** The files written so far, and nothing else, have changed. */
  lemma FilesWritten(v: Vault, ids: seq<Id>, stamp: Stamp, k: nat)
    requires k <= v.tables && Readable(v, ids)
    ensures var w := FilesTo(v, ids, stamp, k);
            && w.hot == v.hot && w.catalog == v.catalog && w.tables == v.tables
            && (forall key: Key :: key.stamp != stamp ==>
                  (key in w.objects <==> key in v.objects) && (key in v.objects ==> w.objects[key] == v.objects[key]))
            && (forall t :: 0 <= t < k && Contents(v, ids, t) != [] ==>
                  Key(t, stamp) in w.objects && w.objects[Key(t, stamp)] == Contents(v, ids, t))
  {
    FilesTouchOwn(v, ids, stamp, k);
    forall t | 0 <= t < k && Contents(v, ids, t) != []
      ensures Key(t, stamp) in FilesTo(v, ids, stamp, k).objects
      ensures FilesTo(v, ids, stamp, k).objects[Key(t, stamp)] == Contents(v, ids, t)
    {
      FileStands(v, ids, stamp, k, t);
    }
  }

  lemma {:induction false} FilesKeep(content: map<Id, Aggregate>, v: Vault, ids: seq<Id>, stamp: Stamp, k: nat)
    requires Kept(content, v) && FreshStamp(v, stamp) && Readable(v, ids) && k <= v.tables
    ensures Kept(content, FilesTo(v, ids, stamp, k))
  {
    var w := FilesTo(v, ids, stamp, k);
    FilesWritten(v, ids, stamp, k);
    forall id | id in content ensures KeptOne(content, w, id) { assert KeptOne(content, v, id); }
  }

  /** Once all files are written, the entry a commit makes yields its aggregate's rows. */
  lemma EntryYields(v: Vault, ids: seq<Id>, stamp: Stamp, i: nat, w: Vault)
    requires i < |ids| && v.tables > 0 && Readable(v, ids) && Distinct(ids)
    requires forall k :: 0 <= k < |ids| ==> !Catalogued(v, ids[k])
    requires w.tables == v.tables && w.objects == FilesTo(v, ids, stamp, v.tables).objects
    ensures HasRoot(v, ids[i]) && Yields(w, EntryFor(v, ids, stamp, ids[i]), ids[i], v.hot[ids[i]])
  {
    var agg := v.hot[ids[i]];
    assert HasRoot(v, ids[i]);
    FilesWritten(v, ids, stamp, v.tables);
    forall t | 0 <= t < v.tables && agg[t] != []
      ensures Key(t, stamp) in w.objects && w.objects[Key(t, stamp)] == Contents(v, ids, t)
              && Decode(w.objects[Key(t, stamp)], ids[i]) == agg[t]
    {
      GatheredYields(v, ids, |ids|, t, i);
    }
  }

  /** A commit touches its own aggregate alone. */
  lemma {:induction false} CommitsTouchOwn(v: Vault, ids: seq<Id>, stamp: Stamp, refused: set<Id>, j: nat)
    requires j <= |ids| && Readable(v, ids) && v.tables > 0
    ensures var w := CommitsTo(v, ids, stamp, refused, j);
            && w.tables == v.tables && w.objects == FilesTo(v, ids, stamp, v.tables).objects
            && (forall id :: id !in ids[..j] ==>
                 (id in w.hot <==> id in v.hot) && (id in w.catalog <==> id in v.catalog))
            && (forall id :: id in w.hot ==> id in v.hot && w.hot[id] == v.hot[id])
            && (forall id :: id !in ids[..j] && id in v.catalog ==> w.catalog[id] == v.catalog[id])
  {
    if j == 0 {
      FilesWritten(v, ids, stamp, v.tables);
    } else {
      CommitsTouchOwn(v, ids, stamp, refused, j - 1);
      assert ids[..j] == ids[..j - 1] + [ids[j - 1]];
    }
  }

  lemma NextCommitKeeps(content: map<Id, Aggregate>, v: Vault, ids: seq<Id>, stamp: Stamp, refused: set<Id>, i: nat)
    requires Kept(content, v) && CleanChunk(v, ids, stamp) && Readable(v, ids) && i < |ids|
    requires Kept(content, CommitsTo(v, ids, stamp, refused, i))
    ensures Kept(content, Committed(v, CommitsTo(v, ids, stamp, refused, i), ids, stamp, ids[i], refused))
  {
    CommitsTouchOwn(v, ids, stamp, refused, i);
    CleanIsReadable(content, v, ids, stamp);
    var w := CommitsTo(v, ids, stamp, refused, i);
    EntryYields(v, ids, stamp, i, w);
    CommitKeeps(content, v, w, ids, stamp, i, refused);
  }

  lemma LastCommit(v: Vault, ids: seq<Id>, stamp: Stamp, refused: set<Id>, j: nat)
    requires 0 < j <= |ids| && Readable(v, ids) && v.tables > 0
    ensures CommitsTo(v, ids, stamp, refused, j)
            == Committed(v, CommitsTo(v, ids, stamp, refused, j - 1), ids, stamp, ids[j - 1], refused)
  {
  }

  lemma {:induction false} CommitsKeep(content: map<Id, Aggregate>, v: Vault, ids: seq<Id>, stamp: Stamp,
      refused: set<Id>, j: nat)
    requires Kept(content, v) && CleanChunk(v, ids, stamp) && Readable(v, ids) && j <= |ids|
    ensures Kept(content, CommitsTo(v, ids, stamp, refused, j))
  {
    if j == 0 {
      FilesKeep(content, v, ids, stamp, v.tables);
    } else {
      CommitsKeep(content, v, ids, stamp, refused, j - 1);
      NextCommitKeeps(content, v, ids, stamp, refused, j - 1);
      LastCommit(v, ids, stamp, refused, j);
    }
  }

  lemma CommitKeeps(content: map<Id, Aggregate>, v: Vault, w: Vault, ids: seq<Id>, stamp: Stamp, i: nat,
      refused: set<Id>)
    requires Kept(content, w) && v.tables > 0 && Readable(v, ids) && i < |ids| && !Catalogued(v, ids[i])
             && HasRoot(v, ids[i])
    requires ids[i] in w.hot ==> w.hot[ids[i]] == v.hot[ids[i]]
    requires Yields(w, EntryFor(v, ids, stamp, ids[i]), ids[i], v.hot[ids[i]])
    ensures Kept(content, Committed(v, w, ids, stamp, ids[i], refused))
  {
    var after := Committed(v, w, ids, stamp, ids[i], refused);
    forall id | id in content ensures KeptOne(content, after, id) { assert KeptOne(content, w, id); }
  }

  /** Whatever the chunk is stopped at, and whichever commits fail, nothing is lost. */
  lemma ChunkKeeps(content: map<Id, Aggregate>, v: Vault, ids: seq<Id>, stamp: Stamp, refused: set<Id>, writes: nat)
    requires Kept(content, v) && CleanChunk(v, ids, stamp)
    ensures Kept(content, ChunkTo(v, ids, stamp, refused, writes))
  {
    CleanIsReadable(content, v, ids, stamp);
    if writes <= v.tables { FilesKeep(content, v, ids, stamp, writes); }
    else {
      CommitsKeep(content, v, ids, stamp, refused, if writes - v.tables <= |ids| then writes - v.tables else |ids|);
    }
  }

  // ---- Restoring -----------------------------------------------------------------------------

  /** A file the restore needs is still frozen. */
  ghost predicate Frozen(v: Vault, id: Id, frozen: set<Key>)
    requires id in v.catalog
  {
    exists t :: 0 <= t < |v.catalog[id].counts| && v.catalog[id].counts[t] != 0 && Key(t, v.catalog[id].stamp) in frozen
  }

  /** With files that yield the aggregate, the first k tables are fetched as they were. */
  lemma {:induction false} FetchesWhatItYields(v: Vault, id: Id, agg: Aggregate, frozen: set<Key>, k: nat)
    requires id in v.catalog && Yields(v, v.catalog[id], id, agg) && k <= v.tables
    ensures var thaw := FetchTo(v, v.catalog[id], id, frozen, k);
            && thaw.trouble.None? && |thaw.rows| == k
            && (thaw.cold <==> exists t :: 0 <= t < k && agg[t] != [] && Key(t, v.catalog[id].stamp) in frozen)
            && (!thaw.cold ==> thaw.rows == agg[..k])
  {
    if k > 0 {
      FetchesWhatItYields(v, id, agg, frozen, k - 1);
      assert agg[..k] == agg[..k - 1] + [agg[k - 1]];
    }
  }

  /** A restore of a catalogued aggregate succeeds exactly when its files have thawed and the insert
      is not refused, and then puts back exactly its rows; otherwise it changes nothing. */
  lemma RestoreIsExact(content: map<Id, Aggregate>, v: Vault, id: Id, frozen: set<Key>, insertFails: bool)
    requires Kept(content, v)
    ensures var w := Restored(v, id, frozen, insertFails);
            && (w != v <==> Catalogued(v, id) && !Frozen(v, id, frozen) && !insertFails)
            && (w != v ==> w == Back(content, v, id))
            && Kept(content, w)
  {
    if Catalogued(v, id) {
      FetchIsExact(content, v, id, frozen);
      BackKeeps(content, v, id);
    }
  }

  /** The vault with one aggregate put back. */
  ghost function Back(content: map<Id, Aggregate>, v: Vault, id: Id): Vault
    requires id in content && id in v.catalog
  {
    v.(hot := v.hot[id := content[id]], catalog := v.catalog[id := v.catalog[id].(restored := true)])
  }

  lemma FetchIsExact(content: map<Id, Aggregate>, v: Vault, id: Id, frozen: set<Key>)
    requires Kept(content, v) && Catalogued(v, id)
    ensures id in content && id !in v.hot
    ensures Fetch(v, id, frozen) == if Frozen(v, id, frozen) then Failed(ColdObject) else Rows(content[id])
  {
    assert KeptOne(content, v, id);
    var agg := content[id];
    FetchesWhatItYields(v, id, agg, frozen, v.tables);
    assert agg[..v.tables] == agg;
    assert Frozen(v, id, frozen) <==>
           exists t :: 0 <= t < v.tables && agg[t] != [] && Key(t, v.catalog[id].stamp) in frozen;
  }

  lemma {:induction false} BackKeeps(content: map<Id, Aggregate>, v: Vault, id: Id)
    requires Kept(content, v) && id in content && id in v.catalog
    ensures Kept(content, Back(content, v, id))
  {
    var w := Back(content, v, id);
    assert KeptOne(content, v, id);
    forall other | other in content ensures KeptOne(content, w, other) { assert KeptOne(content, v, other); }
  }

  // ---- Runs ----------------------------------------------------------------------------------

  datatype Event =
    | Move(ids: seq<Id>, stamp: Stamp, refused: set<Id>, stop: nat)
    | Bring(id: Id, frozen: set<Key>, insertFails: bool)

  function Apply(v: Vault, e: Event): Vault {
    match e
    case Move(ids, stamp, refused, stop) => ChunkTo(v, ids, stamp, refused, stop)
    case Bring(id, frozen, insertFails) => Restored(v, id, frozen, insertFails)
  }

  ghost predicate CleanEvent(v: Vault, e: Event) { e.Move? ==> CleanChunk(v, e.ids, e.stamp) }

  function Run(v: Vault, events: seq<Event>): Vault
    decreases |events|
  {
    if events == [] then v else Run(Apply(v, events[0]), events[1..])
  }

  ghost predicate CleanRun(v: Vault, events: seq<Event>)
    decreases |events|
  {
    events == [] || (CleanEvent(v, events[0]) && CleanRun(Apply(v, events[0]), events[1..]))
  }

  lemma {:induction false} NothingIsEverLost(content: map<Id, Aggregate>, v: Vault, events: seq<Event>)
    requires Kept(content, v) && CleanRun(v, events)
    ensures Kept(content, Run(v, events))
    decreases |events|
  {
    if events != [] {
      match events[0] {
        case Move(ids, stamp, refused, stop) => ChunkKeeps(content, v, ids, stamp, refused, stop);
        case Bring(id, frozen, insertFails) => RestoreIsExact(content, v, id, frozen, insertFails);
      }
      NothingIsEverLost(content, Apply(v, events[0]), events[1..]);
    }
  }

  // ---- Once restored, hot for good -----------------------------------------------------------

  ghost predicate BackForGood(v: Vault, id: Id) { id in v.hot && id in v.catalog && v.catalog[id].restored }

  lemma {:induction false} CommitsLeaveRestored(v: Vault, ids: seq<Id>, stamp: Stamp, refused: set<Id>, j: nat, id: Id)
    requires j <= |ids| && Readable(v, ids) && v.tables > 0 && BackForGood(v, id)
    ensures BackForGood(CommitsTo(v, ids, stamp, refused, j), id)
  {
    if j == 0 {
      FilesWritten(v, ids, stamp, v.tables);
    } else {
      CommitsLeaveRestored(v, ids, stamp, refused, j - 1, id);
    }
  }

  /** The catalogue keeps the row of an aggregate that came back, and one row per aggregate is all
      its index allows: no later run, clean or not, ever moves that aggregate out again. */
  lemma {:induction false} RestoredIsNeverArchivedAgain(v: Vault, events: seq<Event>, id: Id)
    requires BackForGood(v, id)
    ensures BackForGood(Run(v, events), id)
    decreases |events|
  {
    if events != [] {
      match events[0] {
        case Move(ids, stamp, refused, stop) =>
          if Readable(v, ids) && v.tables > 0 {
            if stop <= v.tables { FilesWritten(v, ids, stamp, stop); }
            else {
              CommitsLeaveRestored(v, ids, stamp, refused, if stop - v.tables <= |ids| then stop - v.tables
                  else |ids|, id);
            }
          }
        case Bring(_, _, _) =>
      }
      RestoredIsNeverArchivedAgain(Apply(v, events[0]), events[1..], id);
    }
  }

  // ---- Several chunks of one run -------------------------------------------------------------

  /** A chunk of aggregates never archived before, all of it committed. */
  lemma {:induction false} CommitsArchive(v: Vault, ids: seq<Id>, stamp: Stamp, j: nat, i: nat)
    requires i < j <= |ids| && Readable(v, ids) && v.tables > 0 && Distinct(ids)
    requires forall k :: 0 <= k < |ids| ==> ids[k] in v.hot && ids[k] !in v.catalog
    ensures var w := CommitsTo(v, ids, stamp, {}, j);
            ids[i] !in w.hot && ids[i] in w.catalog && HasRoot(v, ids[i])
                && w.catalog[ids[i]] == EntryFor(v, ids, stamp, ids[i])
  {
    var before := CommitsTo(v, ids, stamp, {}, j - 1);
    if i < j - 1 {
      CommitsArchive(v, ids, stamp, j - 1, i);
      CommitLeavesOthers(v, before, ids, stamp, ids[j - 1], ids[i]);
    } else {
      CommitsTouchOwn(v, ids, stamp, {}, j - 1);
      assert ids[i] !in ids[..j - 1];
      CommitArchives(v, before, ids, stamp, ids[i]);
    }
  }

  lemma CommitArchives(v: Vault, w: Vault, ids: seq<Id>, stamp: Stamp, id: Id)
    requires Readable(v, ids) && v.tables > 0 && id in ids && id !in v.catalog
    requires id in w.hot && id !in w.catalog
    ensures var after := Committed(v, w, ids, stamp, id, {});
            id !in after.hot && id in after.catalog && HasRoot(v, id)
                && after.catalog[id] == EntryFor(v, ids, stamp, id)
  {
  }

  lemma CommitLeavesOthers(v: Vault, w: Vault, ids: seq<Id>, stamp: Stamp, id: Id, other: Id)
    requires Readable(v, ids) && v.tables > 0 && id in ids && other != id
    ensures var after := Committed(v, w, ids, stamp, id, {});
            && (other in after.hot <==> other in w.hot) && (other in after.catalog <==> other in w.catalog)
            && (other in w.catalog ==> after.catalog[other] == w.catalog[other])
  {
  }

  /** What the run still has to do: distinct aggregates, hot, never archived. */
  ghost predicate ToDo(v: Vault, ids: seq<Id>) {
    v.tables > 0 && Distinct(ids) && forall i :: 0 <= i < |ids| ==> HasRoot(v, ids[i]) && ids[i] !in v.catalog
  }

  /** A chunk takes its own aggregates, and leaves every other one as it was. */
  lemma WholeChunkTouchesOwn(v: Vault, ids: seq<Id>, stamp: Stamp, id: Id)
    requires ToDo(v, ids) && id !in ids
    ensures var w := WholeChunk(v, ids, stamp);
            && w.tables == v.tables
            && (id in w.hot <==> id in v.hot) && (id in v.hot ==> w.hot[id] == v.hot[id])
            && (id in w.catalog <==> id in v.catalog) && (id in v.catalog ==> w.catalog[id] == v.catalog[id])
            && (forall key: Key :: key.stamp != stamp && key in v.objects ==>
                 key in w.objects && w.objects[key] == v.objects[key])
  {
    CommitsTouchOwn(v, ids, stamp, {}, |ids|);
    FilesWritten(v, ids, stamp, v.tables);
    assert ids[..|ids|] == ids;
  }

  lemma WholeChunkOverwrites(v: Vault, ids: seq<Id>, stamp: Stamp, id: Id)
    requires ToDo(v, ids) && ids != [] && id !in ids
    ensures var w := WholeChunk(v, ids, stamp);
            Key(0, stamp) in w.objects && Decode(w.objects[Key(0, stamp)], id) == []
  {
    CommitsTouchOwn(v, ids, stamp, {}, |ids|);
    FilesWritten(v, ids, stamp, v.tables);
    GatheredYields(v, ids, |ids|, 0, 0);
    assert ids[..|ids|] == ids;
    OthersAreNotGathered(v, ids, |ids|, 0, id);
    assert HasRoot(v, ids[0]);
  }

  /** An aggregate that is gone, whose entry points at a root file without its row. */
  ghost predicate Lost(v: Vault, id: Id) {
    && id !in v.hot && id in v.catalog && |v.catalog[id].counts| > 0 && v.catalog[id].counts[0] == 1
    && Key(0, v.catalog[id].stamp) in v.objects && Decode(v.objects[Key(0, v.catalog[id].stamp)], id) == []
  }

  lemma {:induction false} LostIsRefused(v: Vault, id: Id, frozen: set<Key>, k: nat)
    requires Lost(v, id) && 0 < k <= |v.catalog[id].counts|
    ensures var thaw := FetchTo(v, v.catalog[id], id, frozen, k); thaw.trouble.Some? || thaw.cold
  {
    if k > 1 {
      LostIsRefused(v, id, frozen, k - 1);
    } else {
      assert FetchTo(v, v.catalog[id], id, frozen, 0).trouble.None?;
    }
  }

  /** No restore ever brings a lost aggregate back, thawed or not. */
  lemma LostStaysLost(v: Vault, id: Id, frozen: set<Key>, insertFails: bool)
    requires Lost(v, id)
    ensures Restored(v, id, frozen, insertFails) == v
  {
    LostIsRefused(v, id, frozen, |v.catalog[id].counts|);
  }

  ghost predicate Recoverable(v: Vault, id: Id) { Restored(v, id, {}, false) != v }

  /** An aggregate that is gone, whose files yield it. */
  ghost predicate Intact(v: Vault, id: Id, agg: Aggregate) {
    id !in v.hot && Catalogued(v, id) && WellFormed(v.tables, agg) && Yields(v, v.catalog[id], id, agg)
  }

  lemma IntactIsRecoverable(v: Vault, id: Id, agg: Aggregate)
    requires Intact(v, id, agg)
    ensures Recoverable(v, id) && Restored(v, id, {}, false).hot == v.hot[id := agg]
  {
    FetchesWhatItYields(v, id, agg, {}, v.tables);
    assert agg[..v.tables] == agg;
  }

  /** The chunk's own aggregates are intact when it is done. */
  lemma ChunkIsIntact(v: Vault, ids: seq<Id>, stamp: Stamp, i: nat)
    requires ToDo(v, ids) && i < |ids|
    ensures var w := WholeChunk(v, ids, stamp);
            Intact(w, ids[i], v.hot[ids[i]]) && w.catalog[ids[i]].stamp == stamp
  {
    CommitsArchive(v, ids, stamp, |ids|, i);
    CommitsTouchOwn(v, ids, stamp, {}, |ids|);
    EntryYields(v, ids, stamp, i, WholeChunk(v, ids, stamp));
  }

  /** A later chunk leaves an aggregate intact when it has another name, and loses it when not. */
  lemma LaterChunkDecides(v: Vault, ids: seq<Id>, stamp: Stamp, id: Id, agg: Aggregate)
    requires ToDo(v, ids) && ids != [] && id !in ids && Intact(v, id, agg)
    ensures var w := WholeChunk(v, ids, stamp);
            if v.catalog[id].stamp != stamp then Intact(w, id, agg) && w.catalog[id] == v.catalog[id] else Lost(w, id)
  {
    WholeChunkTouchesOwn(v, ids, stamp, id);
    if v.catalog[id].stamp == stamp { WholeChunkOverwrites(v, ids, stamp, id); }
  }

  lemma LostOutlastsChunk(v: Vault, ids: seq<Id>, stamp: Stamp, id: Id)
    requires ToDo(v, ids) && ids != [] && id !in ids && Lost(v, id)
    ensures Lost(WholeChunk(v, ids, stamp), id)
  {
    WholeChunkTouchesOwn(v, ids, stamp, id);
    if v.catalog[id].stamp == stamp { WholeChunkOverwrites(v, ids, stamp, id); }
  }

  /** The chunks of a run that are still to be written: none empty, none sharing an aggregate. */
  ghost predicate ChunksToDo(v: Vault, chunks: seq<Chunk>) {
    && (forall c :: 0 <= c < |chunks| ==> chunks[c].ids != [] && ToDo(v, chunks[c].ids))
    && (forall c, d, id :: 0 <= c < d < |chunks| && id in chunks[c].ids ==> id !in chunks[d].ids)
  }

  lemma NextChunksToDo(v: Vault, chunks: seq<Chunk>, run: RunId)
    requires chunks != [] && ChunksToDo(v, chunks)
    ensures ChunksToDo(WholeChunk(v, chunks[0].ids, Stamp(chunks[0].day, run)), chunks[1..])
  {
    var stamp, rest := Stamp(chunks[0].day, run), chunks[1..];
    var w := WholeChunk(v, chunks[0].ids, stamp);
    forall c | 0 <= c < |rest| ensures rest[c].ids != [] && ToDo(w, rest[c].ids) {
      assert rest[c] == chunks[c + 1];
      forall i | 0 <= i < |rest[c].ids| ensures HasRoot(w, rest[c].ids[i]) && rest[c].ids[i] !in w.catalog {
        assert rest[c].ids[i] in rest[c].ids && rest[c].ids[i] !in chunks[0].ids;
        WholeChunkTouchesOwn(v, chunks[0].ids, stamp, rest[c].ids[i]);
      }
      WholeChunkKeepsTables(v, chunks[0].ids, stamp);
    }
  }

  lemma WholeChunkKeepsTables(v: Vault, ids: seq<Id>, stamp: Stamp)
    requires ToDo(v, ids)
    ensures WholeChunk(v, ids, stamp).tables == v.tables
  {
    CommitsTouchOwn(v, ids, stamp, {}, |ids|);
  }

  lemma {:induction false} LostOutlastsRun(v: Vault, chunks: seq<Chunk>, run: RunId, id: Id)
    requires ChunksToDo(v, chunks) && Lost(v, id) && forall c :: 0 <= c < |chunks| ==> id !in chunks[c].ids
    ensures Lost(RunTo(v, chunks, run), id)
    decreases |chunks|
  {
    if chunks != [] {
      var stamp := Stamp(chunks[0].day, run);
      LostOutlastsChunk(v, chunks[0].ids, stamp, id);
      NextChunksToDo(v, chunks, run);
      LostOutlastsRun(WholeChunk(v, chunks[0].ids, stamp), chunks[1..], run, id);
    }
  }

  ghost predicate NoneOnDay(chunks: seq<Chunk>, day: Day) {
    forall c :: 0 <= c < |chunks| ==> chunks[c].day != day
  }

  /** The rest of the run decides what becomes of an aggregate that has left. */
  lemma {:induction false} RestDecides(v: Vault, chunks: seq<Chunk>, run: RunId, day: Day, id: Id, agg: Aggregate)
    requires ChunksToDo(v, chunks) && forall c :: 0 <= c < |chunks| ==> id !in chunks[c].ids
    requires Intact(v, id, agg) && v.catalog[id].stamp == Stamp(day, run)
    ensures if NoneOnDay(chunks, day) then Intact(RunTo(v, chunks, run), id, agg) else Lost(RunTo(v, chunks, run), id)
    decreases |chunks|
  {
    if chunks != [] {
      var stamp := Stamp(chunks[0].day, run);
      var w := WholeChunk(v, chunks[0].ids, stamp);
      LaterChunkDecides(v, chunks[0].ids, stamp, id, agg);
      NextChunksToDo(v, chunks, run);
      assert NoneOnDay(chunks, day) <==> chunks[0].day != day && NoneOnDay(chunks[1..], day) by {
        assert forall c :: 0 <= c < |chunks| ==> c == 0 || chunks[c] == chunks[1..][c - 1];
      }
      if chunks[0].day == day {
        LostOutlastsRun(w, chunks[1..], run, id);
      } else {
        RestDecides(w, chunks[1..], run, day, id, agg);
      }
    }
  }

  /** When a complete run over aggregates never archived before is done, a chunk's aggregates can be
      restored, row for row, exactly when no later chunk of the run was written on the same day: file
      names tell days and runs apart, not chunks. Otherwise they are lost. */
  lemma {:induction false} ChunkIsRecoverableIff(v: Vault, chunks: seq<Chunk>, run: RunId, c: nat, i: nat)
    requires ChunksToDo(v, chunks) && c < |chunks| && i < |chunks[c].ids|
    ensures var w, id := RunTo(v, chunks, run), chunks[c].ids[i];
            && HasRoot(v, id)
            && (Recoverable(w, id) <==> NoneOnDay(chunks[c + 1..], chunks[c].day))
            && (if Recoverable(w, id) then Intact(w, id, v.hot[id]) else Lost(w, id))
    decreases c
  {
    var id, stamp := chunks[c].ids[i], Stamp(chunks[0].day, run);
    var first, rest := WholeChunk(v, chunks[0].ids, stamp), chunks[1..];
    NextChunksToDo(v, chunks, run);
    assert id in chunks[c].ids;
    if c == 0 {
      ChunkIsIntact(v, chunks[0].ids, stamp, i);
      forall d | 0 <= d < |rest| ensures id !in rest[d].ids { assert rest[d] == chunks[d + 1]; }
      RestDecides(first, rest, run, chunks[0].day, id, v.hot[id]);
    } else {
      assert rest[c - 1] == chunks[c] && rest[c..] == chunks[c + 1..];
      assert id !in chunks[0].ids;
      WholeChunkTouchesOwn(v, chunks[0].ids, stamp, id);
      ChunkIsRecoverableIff(first, rest, run, c - 1, i);
    }
    var w := RunTo(v, chunks, run);
    if Lost(w, id) { LostStaysLost(w, id, {}, false); } else { IntactIsRecoverable(w, id, v.hot[id]); }
  }

  // ---- Archived, restored, and refused ------------------------------------------------------

  lemma GoneAndBack(v: Vault, id: Id, stamp: Stamp)
    requires ToDo(v, [id])
    ensures var gone := WholeChunk(v, [id], stamp);
            var back := Restored(gone, id, {}, false);
            && id !in gone.hot && back.hot == v.hot && back.tables == v.tables
            && BackForGood(back, id) && HasRoot(back, id)
  {
    var gone := WholeChunk(v, [id], stamp);
    assert [id][0] == id;
    ChunkIsIntact(v, [id], stamp, 0);
    WholeChunkKeepsTables(v, [id], stamp);
    IntactIsRecoverable(gone, id, v.hot[id]);
    var back := Restored(gone, id, {}, false);
    forall other | other != id
      ensures other in back.hot <==> other in v.hot
      ensures other in v.hot ==> back.hot[other] == v.hot[other]
    {
      WholeChunkTouchesOwn(v, [id], stamp, other);
    }
    assert back.hot == v.hot;
  }

  /** An aggregate archived and brought back, cold again, and in the next run's chunk: its files are
      written once more, and it is not taken. */
  lemma ArchivingAgainIsRefused(v: Vault, id: Id, one: Stamp, two: Stamp)
    requires ToDo(v, [id]) && one != two
    ensures var back := Restored(WholeChunk(v, [id], one), id, {}, false);
            var again := WholeChunk(back, [id], two);
            && id !in WholeChunk(v, [id], one).hot && back.hot == v.hot
            && Key(0, two) in again.objects && again.hot == v.hot && again.catalog == back.catalog
  {
    GoneAndBack(v, id, one);
    var back := Restored(WholeChunk(v, [id], one), id, {}, false);
    var ids := [id];
    assert Readable(back, ids) && !Catalogued(back, id);
    assert Distinct(ids);
    FilesWritten(back, ids, two, back.tables);
    GatheredYields(back, ids, 1, 0, 0);
    var files := FilesTo(back, ids, two, back.tables);
    assert CommitsTo(back, ids, two, {}, 0) == files;
    assert CommitsTo(back, ids, two, {}, 1) == Committed(back, files, ids, two, id, {}) == files;
  }

  // ---- The run as it is cut ------------------------------------------------------------------

  lemma {:induction false} CutStaysInside(ids: seq<Id>, size: nat, days: seq<Day>, c: nat, id: Id)
    requires size > 0 && |ids| <= |days| && c < |Cut(ids, size, days)| && id in Cut(ids, size, days)[c].ids
    ensures id in ids
    decreases |ids|
  {
    if c > 0 { CutStaysInside(ids[ChunkSize(ids, size)..], size, days[1..], c - 1, id); }
  }

  lemma {:induction false} CutIsToDo(v: Vault, ids: seq<Id>, size: nat, days: seq<Day>)
    requires ToDo(v, ids) && size > 0 && |ids| <= |days|
    ensures ChunksToDo(v, Cut(ids, size, days))
    decreases |ids|
  {
    if ids != [] {
      var n := ChunkSize(ids, size);
      var chunks, rest := Cut(ids, size, days), Cut(ids[n..], size, days[1..]);
      CutIsToDo(v, ids[n..], size, days[1..]);
      assert chunks == [Chunk(ids[..n], days[0])] + rest;
      forall d, id | 0 < d < |chunks| && id in chunks[d].ids ensures id !in chunks[0].ids {
        CutStaysInside(ids[n..], size, days[1..], d - 1, id);
      }
    }
  }

  ghost predicate DaysDiffer(chunks: seq<Chunk>) {
    forall c, d :: 0 <= c < d < |chunks| ==> chunks[c].day != chunks[d].day
  }

  ghost predicate AllRecoverable(w: Vault, chunks: seq<Chunk>) {
    forall c, i :: 0 <= c < |chunks| && 0 <= i < |chunks[c].ids| ==> Recoverable(w, chunks[c].ids[i])
  }

  lemma DaysDifferIff(chunks: seq<Chunk>)
    ensures DaysDiffer(chunks) <==> forall c :: 0 <= c < |chunks| ==> NoneOnDay(chunks[c + 1..], chunks[c].day)
  {
  }

  lemma ChunksAreRecoverableIff(v: Vault, chunks: seq<Chunk>, run: RunId)
    requires ChunksToDo(v, chunks)
    ensures AllRecoverable(RunTo(v, chunks, run), chunks) <==> DaysDiffer(chunks)
  {
    var w := RunTo(v, chunks, run);
    DaysDifferIff(chunks);
    forall c, i | 0 <= c < |chunks| && 0 <= i < |chunks[c].ids|
      ensures Recoverable(w, chunks[c].ids[i]) <==> NoneOnDay(chunks[c + 1..], chunks[c].day)
    {
      ChunkIsRecoverableIff(v, chunks, run, c, i);
    }
    if AllRecoverable(w, chunks) {
      forall c | 0 <= c < |chunks| ensures NoneOnDay(chunks[c + 1..], chunks[c].day) {
        assert Recoverable(w, chunks[c].ids[0]);
      }
    }
  }

  /** So a run loses nothing exactly when each of its chunks is written on a day of its own. */
  lemma {:induction false} RunIsRecoverableIff(v: Vault, ids: seq<Id>, run: RunId, size: nat, days: seq<Day>)
    requires ToDo(v, ids) && size > 0 && |ids| <= |days|
    ensures var chunks := Cut(ids, size, days);
            AllRecoverable(RunTo(v, chunks, run), chunks) <==> DaysDiffer(chunks)
  {
    CutIsToDo(v, ids, size, days);
    ChunksAreRecoverableIff(v, Cut(ids, size, days), run);
  }

  /** And a run within one day exactly when it fits one chunk. */
  lemma OneDayRunIsRecoverableIff(v: Vault, ids: seq<Id>, run: RunId, size: nat, days: seq<Day>)
    requires ToDo(v, ids) && size > 0 && |ids| <= |days| && forall c :: 0 <= c < |days| ==> days[c] == days[0]
    ensures var chunks := Cut(ids, size, days);
            AllRecoverable(RunTo(v, chunks, run), chunks) <==> |ids| <= size
  {
    var chunks := Cut(ids, size, days);
    RunIsRecoverableIff(v, ids, run, size, days);
    if ids != [] {
      var rest := ids[ChunkSize(ids, size)..];
      assert |ids| > size <==> rest != [];
      assert |chunks| == 1 + |Cut(rest, size, days[1..])|;
    }
  }
}
