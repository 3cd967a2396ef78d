/** What the archiver does to each aggregate of any vault, sound or not: which restores go through and
    what they put back, and what a chunk leaves of each of its aggregates. */
module ArchiveLaws {
  import opened Status
  import opened Archive
  import opened ArchiveSafety

  // ---- Restores ------------------------------------------------------------------------------

  /** The file of table t can be read, is the one recorded, and has as many of the rows as recorded. */
  predicate IsSoundFile(v: Vault, entry: Entry, id: Id, frozen: set<Key>, t: nat)
    requires t < |entry.counts|
  {
    var key := Key(t, entry.stamp);
    entry.counts[t] == 0 ||
    (key in v.objects && key !in frozen && (t == 0 ==> v.objects[key] == entry.checksum)
     && |Decode(v.objects[key], id)| == entry.counts[t])
  }

  function RowsOfTable(v: Vault, entry: Entry, id: Id, t: nat): seq<Row>
    requires t < |entry.counts|
  {
    var key := Key(t, entry.stamp);
    if entry.counts[t] == 0 || key !in v.objects then [] else Decode(v.objects[key], id)
  }

  lemma {:induction false} FetchGoesThroughIff(v: Vault, entry: Entry, id: Id, frozen: set<Key>, k: nat)
    requires k <= |entry.counts|
    ensures var thaw := FetchTo(v, entry, id, frozen, k);
            && (thaw.trouble.None? ==> |thaw.rows| == k)
            && (thaw.trouble.None? && !thaw.cold <==>
                  forall t :: 0 <= t < k ==> IsSoundFile(v, entry, id, frozen, t))
            && (thaw.trouble.None? && !thaw.cold ==>
                  forall t :: 0 <= t < k ==> thaw.rows[t] == RowsOfTable(v, entry, id, t))
  {
    if k > 0 {
      FetchGoesThroughIff(v, entry, id, frozen, k - 1);
      var before, thaw := FetchTo(v, entry, id, frozen, k - 1), FetchTo(v, entry, id, frozen, k);
      assert thaw.trouble.None? && !thaw.cold <==>
             before.trouble.None? && !before.cold && IsSoundFile(v, entry, id, frozen, k - 1);
      if thaw.trouble.None? && !thaw.cold {
        assert thaw.rows == before.rows + [RowsOfTable(v, entry, id, k - 1)];
      }
    }
  }

  /** Out of any vault: a restore goes through exactly when the aggregate is catalogued and not back, is
      not hot, the insert holds, and every file it needs has thawed, the root's agrees with the recorded
      checksum and each with the recorded count; it then puts back, table by table, the rows its files
      hold of it, marks the entry, and changes nothing else. Otherwise it changes nothing at all. */
  lemma {:induction false} RestoreGoesThroughIff(v: Vault, id: Id, frozen: set<Key>, insertFails: bool)
    ensures var w := Restored(v, id, frozen, insertFails);
            if id in v.catalog && !v.catalog[id].restored && id !in v.hot && !insertFails
                && forall t :: 0 <= t < |v.catalog[id].counts| ==> IsSoundFile(v, v.catalog[id], id, frozen, t) then
              && id in w.hot && |w.hot[id]| == |v.catalog[id].counts|
              && (forall t :: 0 <= t < |w.hot[id]| ==> w.hot[id][t] == RowsOfTable(v, v.catalog[id], id, t))
              && w == v.(hot := v.hot[id := w.hot[id]], catalog := v.catalog[id := v.catalog[id].(restored := true)])
            else w == v
  {
    if id in v.catalog { FetchGoesThroughIff(v, v.catalog[id], id, frozen, |v.catalog[id].counts|); }
  }

  // ---- Chunks --------------------------------------------------------------------------------

  /** What an undisturbed chunk, or one stopped after j commits, leaves of its i-th aggregate: a new one
      leaves with an entry of this chunk's; one whose files an earlier run had written is only deleted;
      one that came back once, or whose commit fails, stays as it was. */
  lemma {:induction false} ChunkFates(v: Vault, ids: seq<Id>, stamp: Stamp, refused: set<Id>, j: nat, i: nat)
    requires i < j <= |ids| && Readable(v, ids) && v.tables > 0 && Distinct(ids)
    ensures var w := ChunkTo(v, ids, stamp, refused, v.tables + j);
            var id := ids[i];
            if id in refused || id !in v.hot || (id in v.catalog && v.catalog[id].restored) then
              && (id in w.hot <==> id in v.hot) && (id in v.hot ==> w.hot[id] == v.hot[id])
              && (id in w.catalog <==> id in v.catalog) && (id in v.catalog ==> w.catalog[id] == v.catalog[id])
            else if id in v.catalog then id !in w.hot && id in w.catalog && w.catalog[id] == v.catalog[id]
            else
              && id !in w.hot && id in w.catalog && HasRoot(v, id)
              && w.catalog[id] == Entry(stamp, Contents(v, ids, 0), Counts(v.hot[id], v.tables), false)
  {
    EarlierCommitsLeave(v, ids, stamp, refused, i);
    LaterCommitsLeave(v, ids, stamp, refused, i, j);
    HotRowsStay(v, ids, stamp, refused, j, ids[i]);
  }

  lemma EarlierCommitsLeave(v: Vault, ids: seq<Id>, stamp: Stamp, refused: set<Id>, i: nat)
    requires i < |ids| && Readable(v, ids) && v.tables > 0 && Distinct(ids)
    ensures SameOf(v, CommitsTo(v, ids, stamp, refused, i), ids[i])
  {
    CommitsTouchOwn(v, ids, stamp, refused, i);
    assert ids[i] !in ids[..i];
  }

  lemma HotRowsStay(v: Vault, ids: seq<Id>, stamp: Stamp, refused: set<Id>, j: nat, id: Id)
    requires j <= |ids| && Readable(v, ids) && v.tables > 0
    ensures var w := CommitsTo(v, ids, stamp, refused, j); id in w.hot ==> id in v.hot && w.hot[id] == v.hot[id]
  {
    CommitsTouchOwn(v, ids, stamp, refused, j);
  }

  /** The same of one aggregate in both. */
  ghost predicate SameOf(v: Vault, w: Vault, id: Id) {
    && (id in w.hot <==> id in v.hot)
    && (id in w.catalog <==> id in v.catalog) && (id in v.catalog ==> w.catalog[id] == v.catalog[id])
  }

  lemma CommitLeaves(v: Vault, w: Vault, ids: seq<Id>, stamp: Stamp, refused: set<Id>, id: Id, other: Id)
    requires Readable(v, ids) && v.tables > 0 && id in ids && other != id
    ensures SameOf(w, Committed(v, w, ids, stamp, id, refused), other)
  {
  }

  lemma {:induction false} LaterCommitsLeave(v: Vault, ids: seq<Id>, stamp: Stamp, refused: set<Id>, i: nat, j: nat)
    requires i < j <= |ids| && Readable(v, ids) && v.tables > 0 && Distinct(ids)
    ensures SameOf(CommitsTo(v, ids, stamp, refused, i + 1), CommitsTo(v, ids, stamp, refused, j), ids[i])
    decreases j
  {
    if i + 1 < j {
      LaterCommitsLeave(v, ids, stamp, refused, i, j - 1);
      CommitLeaves(v, CommitsTo(v, ids, stamp, refused, j - 1), ids, stamp, refused, ids[j - 1], ids[i]);
    }
  }

  /** A chunk with an aggregate that is neither catalogued nor there, root and all, takes nothing. */
  lemma UnreadableChunkTakesNothing(v: Vault, ids: seq<Id>, stamp: Stamp, refused: set<Id>, writes: nat, i: nat)
    requires i < |ids| && !(ids[i] in v.catalog && !v.catalog[ids[i]].restored)
    requires ids[i] !in v.hot || v.hot[ids[i]] == [] || |v.hot[ids[i]][0]| != 1
    ensures ChunkTo(v, ids, stamp, refused, writes) == v
  {
    assert !HasRoot(v, ids[i]);
  }

  // ---- The cut -------------------------------------------------------------------------------

  function Joined(chunks: seq<Chunk>): seq<Id> {
    if chunks == [] then [] else chunks[0].ids + Joined(chunks[1..])
  }

  /** The chunks of a run are its candidates, in their order, none left out, none over the size. */
  lemma {:induction false} CutTakesAll(ids: seq<Id>, size: nat, days: seq<Day>)
    requires size > 0 && |ids| <= |days|
    ensures Joined(Cut(ids, size, days)) == ids
    ensures forall c :: 0 <= c < |Cut(ids, size, days)| ==> |Cut(ids, size, days)[c].ids| <= size
    decreases |ids|
  {
    if ids != [] {
      var n := ChunkSize(ids, size);
      CutTakesAll(ids[n..], size, days[1..]);
      assert Cut(ids, size, days)[1..] == Cut(ids[n..], size, days[1..]);
    }
  }
}
