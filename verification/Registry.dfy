/**
 The registry of delivered positions: in memory, as the parsed contents of the registry
 file, and on a disk where any flush may stop part way.
 */
module Registry {
  import opened Basics
  import opened Decimal

  /** A record of the registry file: a decimal offset or a journald cursor. */
  datatype Record = Record(offset: Text, cursor: string)

  type File = map<string, Record>

  datatype Reg = Reg(offsets: map<string, int>, cursors: map<string, string>)

  const EMPTY := Reg(map[], map[])

  /** What the agent can store: 64-bit offsets and non-empty cursors. */
  ghost predicate Storable(r: Reg)
  {
    && (forall id | id in r.offsets :: INT64_MIN <= r.offsets[id] <= INT64_MAX)
    && (forall id | id in r.cursors :: r.cursors[id] != "")
  }

  function LoadFile(f: File): Reg
  {
    Reg(map id | id in f && f[id].cursor == "" && ParseInt(f[id].offset).Some? :: ParseInt(f[id].offset).value,
        map id | id in f && f[id].cursor != "" :: f[id].cursor)
  }

  function Snapshot(r: Reg): File
  {
    (map id | id in r.offsets :: Record(FormatInt(r.offsets[id]), "")) +
    (map id | id in r.cursors :: Record([], r.cursors[id]))
  }

  function Advanced(r: Reg, id: string, off: int): Reg { r.(offsets := r.offsets[id := off]) }

  function CursorAdvanced(r: Reg, id: string, cursor: string): Reg
  {
    if cursor == "" then r else r.(cursors := r.cursors[id := cursor])
  }

  function Removed(r: Reg, id: string): Reg { Reg(r.offsets - {id}, r.cursors - {id}) }

  /** Loading what a flush wrote returns every cursor, and every offset whose id has no
      cursor; everything else is gone. */
  lemma LoadSnapshot(r: Reg)
    requires Storable(r)
    ensures LoadFile(Snapshot(r)) == Reg(r.offsets - r.cursors.Keys, r.cursors)
  {
    hide ParseInt, FormatInt;
    var f := Snapshot(r);
    var back := LoadFile(f);
    forall id
      ensures id in back.offsets <==> id in r.offsets && id !in r.cursors
      ensures id in back.offsets ==> back.offsets[id] == r.offsets[id]
      ensures id in back.cursors <==> id in r.cursors
      ensures id in back.cursors ==> back.cursors[id] == r.cursors[id]
    {
      SnapshotAt(r, id);
    }
    assert back.offsets == r.offsets - r.cursors.Keys;
    assert back.cursors == r.cursors;
  }

  lemma SnapshotAt(r: Reg, id: string)
    requires Storable(r)
    ensures var back := LoadFile(Snapshot(r));
            && (id in back.offsets <==> id in r.offsets && id !in r.cursors)
            && (id in back.offsets ==> back.offsets[id] == r.offsets[id])
            && (id in back.cursors <==> id in r.cursors)
            && (id in back.cursors ==> back.cursors[id] == r.cursors[id])
  {
    hide ParseInt, FormatInt;
    var f := Snapshot(r);
    if id in r.cursors {
      assert f[id] == Record([], r.cursors[id]);
    } else if id in r.offsets {
      ParseFormatInt(r.offsets[id]);
      assert f[id] == Record(FormatInt(r.offsets[id]), "");
    }
  }

  /** The same for one identifier, whatever the others hold. */
  lemma LoadSnapshotAt(r: Reg, id: string)
    requires id !in r.cursors
    requires id in r.offsets ==> INT64_MIN <= r.offsets[id] <= INT64_MAX
    ensures var back := LoadFile(Snapshot(r));
            && id !in back.cursors && (id in back.offsets <==> id in r.offsets)
            && (id in r.offsets ==> back.offsets[id] == r.offsets[id])
  {
    hide ParseInt, FormatInt;
    if id in r.offsets {
      ParseFormatInt(r.offsets[id]);
      assert Snapshot(r)[id] == Record(FormatInt(r.offsets[id]), "");
    } else {
      assert id !in Snapshot(r);
    }
  }

  lemma NothingLoaded()
    ensures LoadFile(map[]) == EMPTY
  {
  }

  lemma LoadOneMore(f: File, id: string, rec: Record)
    requires id !in f
    ensures var r, n := LoadFile(f), ParseInt(rec.offset);
            LoadFile(f[id := rec]) ==
            if rec.cursor != "" then r.(cursors := r.cursors[id := rec.cursor])
            else if n.Some? then r.(offsets := r.offsets[id := n.value])
            else r
  {
    OneMoreOffset(f, id, rec);
    OneMoreCursor(f, id, rec);
    hide ParseInt, LoadFile;
  }

  lemma OneMoreOffset(f: File, id: string, rec: Record)
    requires id !in f
    ensures var offs, n := LoadFile(f).offsets, ParseInt(rec.offset);
            LoadFile(f[id := rec]).offsets ==
            if rec.cursor == "" && n.Some? then offs[id := n.value] else offs
  {
    hide ParseInt;
  }

  lemma OneMoreCursor(f: File, id: string, rec: Record)
    requires id !in f
    ensures var cursors := LoadFile(f).cursors;
            LoadFile(f[id := rec]).cursors == if rec.cursor != "" then cursors[id := rec.cursor] else cursors
  {
    hide ParseInt;
  }

  lemma {:induction false} LoadIsStorable(f: File)
    ensures Storable(LoadFile(f)) && LoadFile(f).offsets.Keys !! LoadFile(f).cursors.Keys
    ensures LoadFile(Snapshot(LoadFile(f))) == LoadFile(f)
  {
    hide Snapshot;
    var r := LoadFile(f);
    forall id | id in r.offsets
      ensures INT64_MIN <= r.offsets[id] <= INT64_MAX
    {
      assert ParseInt(f[id].offset).Some?;
    }
    LoadSnapshot(r);
    assert r.offsets - r.cursors.Keys == r.offsets;
  }

  // ---- the disk ----

  datatype Content = Absent | Torn | Whole(file: File)

  /** The registry file and the temporary file beside it. */
  datatype Disk = Disk(target: Content, tmp: Content)

  function LoadDisk(d: Disk): Reg
  {
    match d.target
    case Whole(f) => LoadFile(f)
    case _ => EMPTY
  }

  /** How far a flush got: before writing, inside the write, after it, or to the end. */
  datatype Progress = NotBegun | Writing | Written | Renamed

  function FlushTo(d: Disk, f: File, p: Progress): Disk
    decreases p.Renamed?
  {
    match p
    case NotBegun => d
    case Writing => d.(tmp := Torn)
    case Written => d.(tmp := Whole(f))
    case Renamed => Install(FlushTo(d, f, Written))
  }

  /** Renaming moves whatever the temporary file holds over the registry file. */
  function Install(d: Disk): Disk { Disk(d.tmp, Absent) }

  datatype Attempt = Attempt(file: File, progress: Progress)

  function AfterFlushes(d: Disk, tries: seq<Attempt>): Disk
  {
    if tries == [] then d
    else FlushTo(AfterFlushes(d, tries[..|tries| - 1]), tries[|tries| - 1].file, tries[|tries| - 1].progress)
  }

  /** Whatever stops the flushes and wherever, the registry file is the initial one or the
      whole snapshot of the last flush that got to its rename. */
  lemma {:induction false} CrashLeavesWholeSnapshot(d: Disk, tries: seq<Attempt>)
    ensures var target := AfterFlushes(d, tries).target;
            || (target == d.target && forall i | 0 <= i < |tries| :: !tries[i].progress.Renamed?)
            || exists i :: LastRenamed(tries, i) && target == Whole(tries[i].file)
  {
    if tries == [] {
    } else {
      var before, last := tries[..|tries| - 1], |tries| - 1;
      CrashLeavesWholeSnapshot(d, before);
      if tries[last].progress.Renamed? {
        assert LastRenamed(tries, last);
      } else if i :| LastRenamed(before, i) && AfterFlushes(d, before).target == Whole(before[i].file) {
        assert LastRenamed(tries, i);
      }
    }
  }

  /** The last flush that got to its rename. */
  ghost predicate LastRenamed(tries: seq<Attempt>, i: int)
  {
    && 0 <= i < |tries| && tries[i].progress.Renamed?
    && forall j | i < j < |tries| :: !tries[j].progress.Renamed?
  }

  // ---- the registry object ----

  class Store {
    var offsets: map<string, int>
    var cursors: map<string, string>
    var disk: Disk

    ghost function State(): Reg
      reads this
    {
      Reg(offsets, cursors)
    }

    constructor (disk: Disk)
      ensures State() == LoadDisk(disk) && this.disk == disk
    {
      hide ParseInt, LoadFile;
      offsets, cursors, this.disk := map[], map[], disk;
      new;
      if disk.target.Whole? {
        var file := disk.target.file;
        var todo := file.Keys;
        ghost var done: File := map[];
        NothingLoaded();
        while todo != {}
          invariant todo <= file.Keys && this.disk == disk
          invariant done == file - todo && State() == LoadFile(done)
          decreases todo
        {
          var id :| id in todo;
          var rec := file[id];
          LoadOneMore(done, id, rec);
          todo, done := todo - {id}, done[id := rec];
          if rec.cursor != "" {
            cursors := cursors[id := rec.cursor];
          } else {
            var n := ParseInt(rec.offset);
            if n.Some? {
              offsets := offsets[id := n.value];
            }
          }
        }
        assert done == file;
      }
    }

    method Advance(id: string, off: int)
      modifies this
      ensures State() == Advanced(old(State()), id, off) && disk == old(disk)
    {
      offsets := offsets[id := off];
    }

    method AdvanceCursor(id: string, cursor: string)
      modifies this
      ensures State() == CursorAdvanced(old(State()), id, cursor) && disk == old(disk)
    {
      if cursor == "" {
        return;
      }
      cursors := cursors[id := cursor];
    }

    method Remove(id: string)
      modifies this
      ensures State() == Removed(old(State()), id) && disk == old(disk)
    {
      offsets := offsets - {id};
      cursors := cursors - {id};
    }

    /** The map a flush marshals: offsets first, then cursors over them. */
    method Marshal() returns (file: File)
      ensures file == Snapshot(State())
    {
      hide FormatInt;
      var byOffset: File := map[];
      var todo := offsets.Keys;
      while todo != {}
        invariant todo <= offsets.Keys
        invariant byOffset == map id | id in offsets && id !in todo :: Record(FormatInt(offsets[id]), "")
        decreases todo
      {
        var id :| id in todo;
        todo := todo - {id};
        byOffset := byOffset[id := Record(FormatInt(offsets[id]), "")];
      }
      file := AddCursors(byOffset);
    }

    method AddCursors(byOffset: File) returns (file: File)
      ensures file == byOffset + map id | id in cursors :: Record([], cursors[id])
    {
      file := byOffset;
      var todo := cursors.Keys;
      while todo != {}
        invariant todo <= cursors.Keys
        invariant file == byOffset + map id | id in cursors && id !in todo :: Record([], cursors[id])
        decreases todo
      {
        var id :| id in todo;
        todo := todo - {id};
        file := file[id := Record([], cursors[id])];
      }
    }

    /** `progress` is how far the writes get before an error or a crash. */
    method Flush(progress: Progress)
      modifies this
      ensures State() == old(State())
      ensures disk == FlushTo(old(disk), Snapshot(old(State())), progress)
    {
      hide Snapshot;
      var file := Marshal();
      if progress.NotBegun? {
        return;
      }
      disk := disk.(tmp := Torn);
      if progress.Writing? {
        return;
      }
      disk := disk.(tmp := Whole(file));
      if progress.Written? {
        return;
      }
      disk := Install(disk);
    }
  }
}
