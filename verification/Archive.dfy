/** The archiver: cold aggregates leave the hot tables for files and a catalogue, and come back. One
    kind of aggregate; a row is opaque, and a file is a list of rows tagged with their root. */
module Archive {
  import opened Status

  type Id = nat
  type RunId = nat
  type Day = nat
  type Row = nat

  /** An aggregate's rows, table by table, in the order the tables are listed: the root first. */
  type Aggregate = seq<seq<Row>>

  datatype Tagged = Tagged(root: Id, row: Row)
  type File = seq<Tagged>

  /** What the files of a chunk have in their names: the day it is written and the run it belongs to.
      There is no chunk number. */
  datatype Stamp = Stamp(day: Day, run: RunId)

  datatype Key = Key(table: nat, stamp: Stamp)

  datatype Entry = Entry(stamp: Stamp, checksum: File, counts: seq<nat>, restored: bool)

  /** The unique index on entity and id makes the catalogue a map. */
  datatype Vault = Vault(tables: nat, hot: map<Id, Aggregate>, objects: map<Key, File>, catalog: map<Id, Entry>)

  // ---- Files ---------------------------------------------------------------------------------

  function Encode(root: Id, rows: seq<Row>): File {
    if rows == [] then [] else [Tagged(root, rows[0])] + Encode(root, rows[1..])
  }

  /** The rows of one root, in the order they stand in the file. */
  function Decode(file: File, root: Id): seq<Row> {
    if file == [] then []
    else if file[0].root == root then [file[0].row] + Decode(file[1..], root)
    else Decode(file[1..], root)
  }

  lemma {:induction false} DecodeJoins(a: File, b: File, root: Id)
    ensures Decode(a + b, root) == Decode(a, root) + Decode(b, root)
  {
    if a == [] {
      assert a + b == b;
    } else {
      assert (a + b)[1..] == a[1..] + b;
      DecodeJoins(a[1..], b, root);
    }
  }

  lemma {:induction false} DecodeEncode(root: Id, rows: seq<Row>, other: Id)
    ensures Decode(Encode(root, rows), other) == if other == root then rows else []
  {
    if rows != [] {
      assert Encode(root, rows)[1..] == Encode(root, rows[1..]);
      DecodeEncode(root, rows[1..], other);
    }
  }

  const BATCH := 256

  /** Rows are written in batches; the file is all of them, in order. */
  method WriteFile(rows: File) returns (file: File)
    ensures file == rows
  {
    file := [];
    var batch: File := [];
    for i := 0 to |rows|
      invariant file + batch == rows[..i] && |batch| < BATCH
    {
      batch := batch + [rows[i]];
      if |batch| == BATCH { file, batch := file + batch, []; }
    }
    if batch != [] { file := file + batch; }
  }

  /** A file is read a buffer at a time, and every row of the wanted root is kept. */
  method ReadFile(file: File, root: Id) returns (rows: seq<Row>)
    ensures rows == Decode(file, root)
  {
    rows := [];
    var at := 0;
    while at < |file|
      invariant 0 <= at <= |file| && rows + Decode(file[at..], root) == Decode(file, root)
    {
      var end := if at + BATCH < |file| then at + BATCH else |file|;
      var found := ReadBuffer(file[at..end], root);
      assert file[at..] == file[at..end] + file[end..];
      DecodeJoins(file[at..end], file[end..], root);
      rows := rows + found;
      at := end;
    }
  }

  method ReadBuffer(buffer: File, root: Id) returns (rows: seq<Row>)
    ensures rows == Decode(buffer, root)
  {
    rows := [];
    for i := 0 to |buffer|
      invariant rows + Decode(buffer[i..], root) == Decode(buffer, root)
    {
      if buffer[i].root == root { rows := rows + [buffer[i].row]; }
      assert buffer[i..][1..] == buffer[i + 1..];
    }
  }

  // ---- A chunk, write by write ---------------------------------------------------------------

  predicate Catalogued(v: Vault, id: Id) { id in v.catalog && !v.catalog[id].restored }

  /** Every id of the chunk that is not already catalogued has its root row, and all its tables. */
  predicate Readable(v: Vault, ids: seq<Id>) {
    forall i :: 0 <= i < |ids| && !Catalogued(v, ids[i]) ==> HasRoot(v, ids[i])
  }

  predicate HasRoot(v: Vault, id: Id) {
    id in v.hot && v.tables > 0 && |v.hot[id]| == v.tables && |v.hot[id][0]| == 1
  }

  /** The rows of table t of the first n aggregates of the chunk. */
  function Gathered(v: Vault, ids: seq<Id>, n: nat, t: nat): File
    requires n <= |ids| && t < v.tables && Readable(v, ids)
  {
    if n == 0 then []
    else
      var before := Gathered(v, ids, n - 1, t);
      if Catalogued(v, ids[n - 1]) then before else before + Encode(ids[n - 1], v.hot[ids[n - 1]][t])
  }

  function Contents(v: Vault, ids: seq<Id>, t: nat): File
    requires t < v.tables && Readable(v, ids)
  {
    Gathered(v, ids, |ids|, t)
  }

  /** After the files of the first k tables: a table without rows has none. */
  function FilesTo(v: Vault, ids: seq<Id>, stamp: Stamp, k: nat): Vault
    requires k <= v.tables && Readable(v, ids)
  {
    if k == 0 then v
    else
      var w := FilesTo(v, ids, stamp, k - 1);
      if Contents(v, ids, k - 1) == [] then w
      else w.(objects := w.objects[Key(k - 1, stamp) := Contents(v, ids, k - 1)])
  }

  function Counts(agg: Aggregate, n: nat): (counts: seq<nat>)
    requires n <= |agg|
    ensures |counts| == n && forall t :: 0 <= t < n ==> counts[t] == |agg[t]|
  {
    if n == 0 then [] else Counts(agg, n - 1) + [|agg[n - 1]|]
  }

  function EntryFor(v: Vault, ids: seq<Id>, stamp: Stamp, id: Id): Entry
    requires Readable(v, ids) && v.tables > 0 && HasRoot(v, id)
  {
    Entry(stamp, Contents(v, ids, 0), Counts(v.hot[id], v.tables), false)
  }

  /** One commit: catalogue row in and hot rows out, or nothing. A row of the catalogue that is
      already there, restored, makes the insert fail. */
  function Committed(v: Vault, w: Vault, ids: seq<Id>, stamp: Stamp, id: Id, refused: set<Id>): Vault
    requires Readable(v, ids) && id in ids && v.tables > 0
  {
    if id in refused || id !in w.hot then w
    else if Catalogued(v, id) then w.(hot := w.hot - {id})
    else if id in w.catalog then w
    else w.(hot := w.hot - {id}, catalog := w.catalog[id := EntryFor(v, ids, stamp, id)])
  }

  /** After all the files and the first j commits. */
  function CommitsTo(v: Vault, ids: seq<Id>, stamp: Stamp, refused: set<Id>, j: nat): Vault
    requires j <= |ids| && Readable(v, ids) && v.tables > 0
  {
    if j == 0 then FilesTo(v, ids, stamp, v.tables)
    else Committed(v, CommitsTo(v, ids, stamp, refused, j - 1), ids, stamp, ids[j - 1], refused)
  }

  /** The vault when a chunk has taken `writes` of its steps: first files, then commits. A chunk
      whose rows cannot be read takes none. */
  function ChunkTo(v: Vault, ids: seq<Id>, stamp: Stamp, refused: set<Id>, writes: nat): Vault {
    if !Readable(v, ids) || v.tables == 0 then v
    else if writes <= v.tables then FilesTo(v, ids, stamp, writes)
    else CommitsTo(v, ids, stamp, refused, if writes - v.tables <= |ids| then writes - v.tables else |ids|)
  }

  function ChunkSize(ids: seq<Id>, size: nat): (n: nat)
    ensures n <= |ids| && n <= size && (ids != [] && size > 0 ==> n > 0)
  {
    if |ids| < size then |ids| else size
  }

  /** A chunk of the candidates, and the day on which it comes to be written. */
  datatype Chunk = Chunk(ids: seq<Id>, day: Day)

  /** The candidates cut into chunks; the clock is read anew for each. */
  function Cut(ids: seq<Id>, size: nat, days: seq<Day>): (chunks: seq<Chunk>)
    requires size > 0 && |ids| <= |days|
    ensures forall c :: 0 <= c < |chunks| ==> chunks[c].ids != [] && c < |days| && chunks[c].day == days[c]
    decreases |ids|
  {
    if ids == [] then []
    else
      var n := ChunkSize(ids, size);
      [Chunk(ids[..n], days[0])] + Cut(ids[n..], size, days[1..])
  }

  /** One run over its chunks, nothing failing: every chunk under the run's one id. */
  function RunTo(v: Vault, chunks: seq<Chunk>, run: RunId): Vault
    decreases |chunks|
  {
    if chunks == [] then v
    else RunTo(WholeChunk(v, chunks[0].ids, Stamp(chunks[0].day, run)), chunks[1..], run)
  }

  function WholeChunk(v: Vault, ids: seq<Id>, stamp: Stamp): Vault { ChunkTo(v, ids, stamp, {}, v.tables + |ids|) }

  // ---- A restore -----------------------------------------------------------------------------

  datatype Trouble = NotCatalogued | AlreadyRestored | ColdObject | BadChecksum | WrongCount | InsertFailed

  datatype Fetched = Rows(tables: Aggregate) | Failed(why: Trouble)

  /** What the restore has in hand after its first k tables; `cold` remembers a file still frozen. */
  datatype Thaw = Thaw(rows: Aggregate, cold: bool, trouble: Option<Trouble>)

  function FetchTo(v: Vault, entry: Entry, id: Id, frozen: set<Key>, k: nat): Thaw
    requires k <= |entry.counts|
  {
    if k == 0 then Thaw([], false, None)
    else
      var before := FetchTo(v, entry, id, frozen, k - 1);
      var key := Key(k - 1, entry.stamp);
      if before.trouble.Some? then before
      else if entry.counts[k - 1] == 0 then before.(rows := before.rows + [[]])
      else if key !in v.objects || key in frozen then Thaw(before.rows + [[]], true, None)
      else if k == 1 && v.objects[key] != entry.checksum then before.(trouble := Some(BadChecksum))
      else if |Decode(v.objects[key], id)| != entry.counts[k - 1] then before.(trouble := Some(WrongCount))
      else before.(rows := before.rows + [Decode(v.objects[key], id)])
  }

  function Fetch(v: Vault, id: Id, frozen: set<Key>): Fetched {
    if id !in v.catalog then Failed(NotCatalogued)
    else if v.catalog[id].restored then Failed(AlreadyRestored)
    else
      var thaw := FetchTo(v, v.catalog[id], id, frozen, |v.catalog[id].counts|);
      if thaw.trouble.Some? then Failed(thaw.trouble.value)
      else if thaw.cold then Failed(ColdObject)
      else Rows(thaw.rows)
  }

  /** All or nothing: the rows go in and the catalogue row is marked, or neither happens. */
  function Restored(v: Vault, id: Id, frozen: set<Key>, insertFails: bool): Vault {
    match Fetch(v, id, frozen)
    case Failed(_) => v
    case Rows(tables) =>
      if insertFails || id in v.hot then v
      else v.(hot := v.hot[id := tables], catalog := v.catalog[id := v.catalog[id].(restored := true)])
  }

  // ---- The archiver, in place ----------------------------------------------------------------

  class Archiver {
    const tables: nat
    var hot: map<Id, Aggregate>
    var objects: map<Key, File>
    var catalog: map<Id, Entry>

    function View(): Vault reads this { Vault(tables, hot, objects, catalog) }

    constructor (tables: nat, hot: map<Id, Aggregate>)
      ensures View() == Vault(tables, hot, map[], map[])
    {
      this.tables, this.hot, this.objects, this.catalog := tables, hot, map[], map[];
    }

    /** The rows of one table across the chunk. */
    method Gather(ids: seq<Id>, t: nat) returns (rows: File)
      requires t < tables && Readable(View(), ids)
      ensures rows == Contents(View(), ids, t)
    {
      rows := [];
      for n := 0 to |ids|
        invariant rows == Gathered(View(), ids, n, t)
      {
        if !Catalogued(View(), ids[n]) { rows := rows + Encode(ids[n], hot[ids[n]][t]); }
      }
    }

    method GatherAll(ids: seq<Id>) returns (perTable: seq<File>)
      requires Readable(View(), ids)
      ensures |perTable| == tables && forall t :: 0 <= t < tables ==> perTable[t] == Contents(View(), ids, t)
    {
      perTable := [];
      for t := 0 to tables
        invariant |perTable| == t && forall u :: 0 <= u < t ==> perTable[u] == Contents(View(), ids, u)
      {
        var rows := Gather(ids, t);
        perTable := perTable + [rows];
      }
    }

    /** The files of the first tables; a table without rows has none. */
    method WriteFiles(ids: seq<Id>, stamp: Stamp, perTable: seq<File>, count: nat)
      requires Readable(View(), ids) && count <= tables == |perTable|
      requires forall t :: 0 <= t < tables ==> perTable[t] == Contents(View(), ids, t)
      modifies this`objects
      ensures View() == FilesTo(old(View()), ids, stamp, count)
    {
      for k := 0 to count
        invariant View() == FilesTo(old(View()), ids, stamp, k)
      {
        if perTable[k] != [] {
          var file := WriteFile(perTable[k]);
          objects := objects[Key(k, stamp) := file];
        }
      }
    }

    /** One aggregate after the other: catalogue row in and hot rows out, if the transaction holds. `v`
        is the vault as the chunk was read. */
    method CommitRows(v: Vault, ids: seq<Id>, stamp: Stamp, root: File, refused: set<Id>, count: nat)
      requires Readable(v, ids) && v.tables > 0 && count <= |ids|
      requires View() == FilesTo(v, ids, stamp, v.tables) && root == Contents(v, ids, 0)
      modifies this`hot, this`catalog
      ensures View() == CommitsTo(v, ids, stamp, refused, count)
    {
      for j := 0 to count
        invariant View() == CommitsTo(v, ids, stamp, refused, j)
      {
        var id := ids[j];
        if id in refused || id !in hot {
        } else if Catalogued(v, id) {
          hot := hot - {id};
        } else if id !in catalog {
          catalog := catalog[id := Entry(stamp, root, Counts(v.hot[id], v.tables), false)];
          hot := hot - {id};
        }
      }
    }

    /** `stop` is how many steps are taken before the process dies, if it does. */
    method ArchiveChunk(ids: seq<Id>, stamp: Stamp, refused: set<Id>, stop: nat)
      modifies this`hot, this`objects, this`catalog
      ensures View() == ChunkTo(old(View()), ids, stamp, refused, stop)
    {
      var v := View();
      if !Readable(v, ids) || tables == 0 { return; }
      var perTable := GatherAll(ids);
      WriteFiles(ids, stamp, perTable, if stop < tables then stop else tables);
      if stop <= tables { return; }
      CommitRows(v, ids, stamp, perTable[0], refused, if stop - tables <= |ids| then stop - tables else |ids|);
    }

    /** `days` is what the clock says at each chunk. */
    method RunOver(ids: seq<Id>, run: RunId, size: nat, days: seq<Day>)
      requires size > 0 && |ids| <= |days|
      modifies this`hot, this`objects, this`catalog
      ensures View() == RunTo(old(View()), Cut(ids, size, days), run)
    {
      ghost var whole := RunTo(View(), Cut(ids, size, days), run);
      var rest, clock := ids, days;
      while rest != []
        invariant |rest| <= |clock| && RunTo(View(), Cut(rest, size, clock), run) == whole
        decreases |rest|
      {
        var n := ChunkSize(rest, size);
        ghost var chunks := Cut(rest, size, clock);
        assert chunks[0] == Chunk(rest[..n], clock[0]) && chunks[1..] == Cut(rest[n..], size, clock[1..]);
        ArchiveChunk(rest[..n], Stamp(clock[0], run), {}, tables + n);
        rest, clock := rest[n..], clock[1..];
      }
    }

    method Restore(id: Id, frozen: set<Key>, insertFails: bool) returns (trouble: Option<Trouble>)
      modifies this`hot, this`catalog
      ensures View() == Restored(old(View()), id, frozen, insertFails)
      ensures trouble.Some? ==> View() == old(View())
      ensures trouble.None? ==>
              id in hot && !Fetch(old(View()), id, frozen).Failed? && hot[id] == Fetch(old(View()), id, frozen).tables
    {
      if id !in catalog { return Some(NotCatalogued); }
      var entry := catalog[id];
      if entry.restored { return Some(AlreadyRestored); }
      var rows: Aggregate, cold := [], false;
      for k := 0 to |entry.counts|
        invariant View() == old(View())
        invariant FetchTo(View(), entry, id, frozen, k) == Thaw(rows, cold, None)
      {
        var key := Key(k, entry.stamp);
        if entry.counts[k] == 0 {
          rows := rows + [[]];
        } else if key !in objects || key in frozen {
          rows, cold := rows + [[]], true;
        } else {
          if k == 0 && objects[key] != entry.checksum {
            TroubleStays(View(), entry, id, frozen, k + 1, |entry.counts|);
            return Some(BadChecksum);
          }
          var found := ReadFile(objects[key], id);
          if |found| != entry.counts[k] {
            TroubleStays(View(), entry, id, frozen, k + 1, |entry.counts|);
            return Some(WrongCount);
          }
          rows := rows + [found];
        }
      }
      if cold { return Some(ColdObject); }
      if insertFails || id in hot { return Some(InsertFailed); }
      hot := hot[id := rows];
      catalog := catalog[id := entry.(restored := true)];
      trouble := None;
    }
  }

  lemma {:induction false} TroubleStays(v: Vault, entry: Entry, id: Id, frozen: set<Key>, k: nat, n: nat)
    requires k <= n <= |entry.counts| && FetchTo(v, entry, id, frozen, k).trouble.Some?
    ensures FetchTo(v, entry, id, frozen, n) == FetchTo(v, entry, id, frozen, k)
    decreases n - k
  {
    if k < n { TroubleStays(v, entry, id, frozen, k, n - 1); }
  }
}
