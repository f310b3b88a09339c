/** Conflicts: the copy that keeps the local content, and what each way of resolving does with it. */
module Conflicts {
  import opened Wrappers
  import opened CloudTables
  import opened LocalQueue
  import opened LocalDatabase

  type Path = string

  datatype Choice = KeepLocal | KeepCloud | KeepBoth

  /** A download of the current cloud version into a path. One that fails may leave anything there. */
  datatype Download = Arrives(version: nat, hash: Hash) | Breaks(left: Option<Hash>)

  datatype ConflictError = LocalFileMissing | ConflictNotFound | CopyNotFound | DownloadFailed

  /** The content is on its way to the cloud, or is what the cloud was last seen to hold. */
  predicate Safe(l: Local, f: FileId, hash: Hash) {
    f in l.files && (l.files[f].hash == Some(hash) || HasActiveForHash(l.rows, f, hash))
  }

  /** queueUpsert gives up without queueing: another row, no longer live, already has the key. */
  predicate Refused(l: Local, f: FileId, hash: Hash)
    requires f in l.files
  {
    && l.files[f].hash != Some(hash) && !HasActiveForHash(l.rows, f, hash)
    && (forall r | r in l.rows.Keys :: !IsWaiting(l.rows[r], f))
    && KeyTaken(l.rows, UpsertKey(f, l.files[f].version, hash, None))
  }

  /** Where content is refused, a row that stopped (an error or a conflict) holds that very content. */
  lemma RefusedHasTwin(l: Local, f: FileId, hash: Hash)
    requires f in l.files && KeysTell(l.rows) && Refused(l, f, hash)
    ensures exists r | r in l.rows.Keys :: l.rows[r].fileId == f && l.rows[r].hash == Some(hash) && !Live(l.rows[r].status)
  {
    var r :| r in l.rows.Keys && l.rows[r].key == UpsertKey(f, l.files[f].version, hash, None);
    assert l.rows[r].fileId == f && l.rows[r].hash == Some(hash);
  }

  /** A row other than r that stopped with this content. */
  predicate StoppedTwin(rows: map<RowId, Row>, r: RowId, f: FileId, hash: Hash) {
    exists q | q in rows.Keys :: q != r && rows[q].fileId == f && rows[q].hash == Some(hash) && !Live(rows[q].status)
  }

  /** Rows belong to known files, and their keys say so and tell their content. */
  predicate RowsRight(l: Local) {
    KeysTell(l.rows) && forall r | r in l.rows.Keys :: l.rows[r].fileId in l.files && l.rows[r].key.fileId == l.rows[r].fileId
  }

  lemma QueueKeepsRowsRight(l: Local, a: UpsertArgs, waiting: Option<RowId>, id: RowId, now: nat)
    requires RowsRight(l) && a.f in l.files && id !in l.rows && PicksWaiting(l.rows, a.f, waiting)
    ensures RowsRight(QueueUpsert(l, a, waiting, id, now))
  {
    QueueingKeepsTelling(l, a, waiting, id, now);
    hide KeysTell, UpsertSkipped, KeyTaken;
  }

  lemma OthersKeepRowsRight(l: Local, r: RowId, f: FileId, version: nat, hash: Option<Hash>, status: SyncStatus)
    requires RowsRight(l)
    ensures RowsRight(MarkRow(l, r, status, None)) && RowsRight(CancelPending(l, f)) && RowsRight(CancelPendingById(l, r))
    ensures RowsRight(UpdateCloudState(l, f, version, hash, status)) && RowsRight(EnsureFile(l, f))
  {
    ProgressKeepsTelling(l, r, status, None, SentReceipt(0, 0), version, hash);
    FilesKeepTelling(l, f, Bot, version, hash, status, Active);
    hide KeysTell;
  }

  /** Content of a file without rows is never refused. */
  lemma NoRowsNotRefused(l: Local, f: FileId, hash: Hash)
    requires RowsRight(l) && f in l.files && forall r | r in l.rows.Keys :: l.rows[r].fileId != f
    ensures !Refused(l, f, hash)
  {
  }

  function ArgsFor(l: Local, f: FileId, hash: Hash, priority: int, backend: Backend): UpsertArgs
    requires f in l.files
  {
    UpsertArgs(f, l.files[f], hash, priority, backend, None)
  }

  /** Queueing an active file's content makes it safe exactly when it is not refused. */
  lemma QueueMakesSafe(l: Local, f: FileId, hash: Hash, priority: int, backend: Backend, waiting: Option<RowId>, id: RowId, now: nat)
    requires f in l.files && l.files[f].cloudStatus == Active && id !in l.rows && PicksWaiting(l.rows, f, waiting)
    ensures Safe(QueueUpsert(l, ArgsFor(l, f, hash, priority, backend), waiting, id, now), f, hash) <==> !Refused(l, f, hash)
    ensures var l' := QueueUpsert(l, ArgsFor(l, f, hash, priority, backend), waiting, id, now);
      l'.files.Keys == l.files.Keys && forall g | g in l.files :: l'.files[g] == l.files[g].(status := l'.files[g].status)
  {
    var a := ArgsFor(l, f, hash, priority, backend);
    var l' := QueueUpsert(l, a, waiting, id, now);
    if !UpsertSkipped(l, a) && waiting.Some? {
      assert l'.rows[waiting.value].hash == Some(hash) && Live(l'.rows[waiting.value].status);
    } else if !UpsertSkipped(l, a) && !KeyTaken(l.rows, UpsertKey(f, l.files[f].version, hash, None)) {
      assert l'.rows[id].hash == Some(hash) && Live(l'.rows[id].status);
    }
  }

  /** The tables once the cloud's state is recorded and the conflict row is gone. */
  ghost function Settled(l: Local, r: RowId, f: FileId, version: nat, hash: Hash): Local {
    CancelPendingById(UpdateCloudState(l, f, version, Some(hash), InConflict), r)
  }

  lemma SettledFile(l: Local, r: RowId, f: FileId, version: nat, hash: Hash)
    requires f in l.files
    ensures var mid := UpdateCloudState(l, f, version, Some(hash), InConflict);
      mid.files.Keys == l.files.Keys && mid.rows == l.rows
      && forall g | g in l.files && l.files[g].cloudStatus == Active :: mid.files[g].cloudStatus == Active
    ensures var mid := Settled(l, r, f, version, hash);
      mid.files.Keys == l.files.Keys && mid.files[f].cloudStatus == Active
  {
  }

  /** The sync folder, which path each file stands at, and the copy each conflict row remembers. */
  class Desk {
    const db: LocalDb
    var disk: map<Path, Hash>
    var paths: map<Path, FileId>
    var copies: map<RowId, Path>

    predicate Valid()
      reads this, db
    {
      RowsRight(Local(db.files, db.rows)) && forall p | p in paths.Keys :: paths[p] in db.files
    }

    constructor (db: LocalDb)
      requires RowsRight(Local(db.files, db.rows))
      ensures this.db == db && Valid() && disk == map[] && paths == map[] && copies == map[]
    {
      this.db := db;
      disk, paths, copies := map[], map[], map[];
    }

    /** downloadCurrentTo a path. */
    method DownloadTo(path: Path, d: Download)
      modifies this`disk
      ensures forall p | p != path :: (p in disk <==> p in old(disk)) && (p in disk ==> disk[p] == old(disk)[p])
      ensures d.Arrives? ==> path in disk && disk[path] == d.hash
    {
      match d {
        case Arrives(_, hash) => disk := disk[path := hash];
        case Breaks(left) => if left.Some? { disk := disk[path := left.value]; }
      }
    }

    /** createConflict, with a copy name no file has. The content is in the copy before anything else
        happens, so it is there whether or not the download works. */
    method CreateConflict(r: RowId, local: Path, copy: Path, d: Download) returns (error: Option<ConflictError>)
      requires Valid() && r in db.rows && db.rows[r].fileId in db.files
      requires copy !in disk && copy != local
      modifies this`disk, this`copies, db
      ensures Valid() && paths == old(paths)
      ensures error.Some? <==> local !in old(disk)
      ensures error.Some? ==> disk == old(disk) && copies == old(copies) && db.Tables() == old(db.Tables())
      ensures error.None? ==>
        && copy in disk && disk[copy] == old(disk)[local]
        && (forall p | p in old(disk) && p != local :: p in disk && disk[p] == old(disk)[p])
        && r in copies && copies[r] == copy
        && db.rows == old(db.rows)[r := old(db.rows)[r].(status := InConflict)]
        && var f := old(db.rows)[r].fileId; var was := old(db.files)[f];
           db.files == old(db.files)[f := if d.Arrives? then LocalFile(d.version, Some(d.hash), InConflict, Active) else was.(status := InConflict)]
    {
      if local !in disk {
        return Some(LocalFileMissing);
      }
      var f := db.rows[r].fileId;
      ghost var before := db.Tables();
      OthersKeepRowsRight(before, r, f, if d.Arrives? then d.version else 0, if d.Arrives? then Some(d.hash) else None, Synced);
      OthersKeepRowsRight(UpdateCloudState(before, f, if d.Arrives? then d.version else 0, if d.Arrives? then Some(d.hash) else None, Synced),
        r, f, 0, None, InConflict);
      OthersKeepRowsRight(before, r, f, 0, None, InConflict);
      disk := disk[copy := disk[local]];
      DownloadTo(local, d);
      if d.Arrives? {
        db.UpdateCloudState(f, d.version, Some(d.hash), Synced);
      }
      db.MarkConflict(r);
      copies := copies[r := copy];
      error := None;
    }

    /** handleFileReady on a readable file, or on none: that is only logged. `missing` is a file whose
        content vanished elsewhere a moment ago and equals this one's: then this is that file, moved. */
    method HandleFileReady(path: Path, missing: Option<FileId>, newFile: FileId, id: RowId, now: nat, priority: int, backend: Backend)
      requires Valid() && newFile !in db.files && id !in db.rows
      requires missing.Some? ==> missing.value in db.files && db.files[missing.value].cloudStatus == Active
      modifies this`paths, db
      ensures Valid() && (path in disk ==> path in paths)
      ensures path in old(paths) ==> paths == old(paths)
      ensures forall p | p in old(paths) && Some(old(paths)[p]) != missing :: p in paths && paths[p] == old(paths)[p]
      ensures path !in disk ==> paths == old(paths) && db.Tables() == old(db.Tables())
      ensures path in disk ==>
        var hash := disk[path];
        var f := paths[path];
        if path in old(paths) then
          if old(db.files)[f].cloudStatus != Active then db.Tables() == old(db.Tables())
          else Safe(db.Tables(), f, hash) <==> !Refused(old(db.Tables()), f, hash)
        else Safe(db.Tables(), f, hash)
    {
      if path !in disk {
        return;  // ENOENT, caught and logged
      }
      var hash := disk[path];
      if path !in paths && missing.Some? {
        var g := missing.value;
        paths := (map p | p in paths && paths[p] != g :: paths[p])[path := g];
        if db.files[g].version > 0 && db.files[g].hash == Some(hash) {
          return;  // only a rename is queued, whose row is not content
        }
        OthersKeepRowsRight(db.Tables(), id, g, 0, None, Synced);
        db.CancelPending(g);
        NoRowsNotRefused(db.Tables(), g, hash);
        QueueContent(g, hash, id, now, priority, backend);
        return;
      }
      if path !in paths {
        NoRowsNotRefused(EnsureFile(db.Tables(), newFile), newFile, hash);
        OthersKeepRowsRight(db.Tables(), id, newFile, 0, None, Synced);
        db.EnsureFile(newFile);
        paths := paths[path := newFile];
      } else if db.files[paths[path]].cloudStatus != Active {
        return;
      }
      QueueContent(paths[path], hash, id, now, priority, backend);
    }

    method QueueContent(f: FileId, hash: Hash, id: RowId, now: nat, priority: int, backend: Backend)
      requires f in db.files && db.files[f].cloudStatus == Active && id !in db.rows && RowsRight(Local(db.files, db.rows))
      modifies db
      ensures RowsRight(Local(db.files, db.rows))
      ensures Safe(db.Tables(), f, hash) <==> !Refused(old(db.Tables()), f, hash)
      ensures db.files.Keys == old(db.files.Keys)
      ensures forall g | g in old(db.files) :: db.files[g] == old(db.files)[g].(status := db.files[g].status)
    {
      ghost var before := db.Tables();
      var args := UpsertArgs(f, db.files[f], hash, priority, backend, None);
      var queued := db.QueueUpsert(args, id, now);
      ghost var waiting :| PicksWaiting(before.rows, f, waiting) && db.Tables() == QueueUpsert(before, args, waiting, id, now);
      QueueMakesSafe(before, f, hash, priority, backend, waiting, id, now);
      QueueKeepsRowsRight(before, args, waiting, id, now);
    }

    /** resolveConflict. Nothing but `KeepCloud` gives up the content of the copy. */
    method ResolveConflict(f: FileId, choice: Choice, pick: Option<RowId>, local: Path, d: Download,
                           missing: Option<FileId>, newFile: FileId, id: RowId, now: nat, priority: int, backend: Backend)
        returns (error: Option<ConflictError>)
      requires Valid() && f in db.files && local in paths && paths[local] == f
      requires match pick
        case None => forall r | r in db.rows.Keys :: !(db.rows[r].fileId == f && db.rows[r].status == InConflict)
        case Some(p) => p in db.rows && db.rows[p].fileId == f && db.rows[p].status == InConflict
      requires pick.Some? && pick.value in copies ==> copies[pick.value] != local
      requires newFile !in db.files && id !in db.rows
      requires missing.Some? ==> missing.value in db.files && missing.value != f && db.files[missing.value].cloudStatus == Active
      modifies this`disk, this`paths, db
      ensures Valid() && forall p | p in old(paths) && Some(old(paths)[p]) != missing :: p in paths && paths[p] == old(paths)[p]
      ensures error == Some(DownloadFailed) ==> db.Tables() == old(db.Tables()) && forall p | p in old(disk) && p != local :: p in disk && disk[p] == old(disk)[p]
      ensures error in {Some(ConflictNotFound), Some(CopyNotFound)} && !d.Arrives? ==> db.Tables() == old(db.Tables()) && disk == old(disk)
      ensures error.None? <==>
        && pick.Some? && old(db.rows)[pick.value].operation == Upsert && pick.value in copies && d.Arrives?
        && (choice == KeepLocal ==> copies[pick.value] in old(disk))
      ensures error == Some(DownloadFailed) <==>
        pick.Some? && old(db.rows)[pick.value].operation == Upsert && pick.value in copies && d.Breaks?
      ensures error.None? ==>
        var copy := copies[pick.value];
        var mid := Settled(old(db.Tables()), pick.value, f, d.version, d.hash);
        match choice
        case KeepCloud => copy !in disk && local in disk && disk[local] == d.hash && db.Tables() == mid
        case KeepLocal =>
          && copy in old(disk) && copy !in disk && local in disk && disk[local] == old(disk)[copy]
          && (Safe(db.Tables(), f, old(disk)[copy]) <==> !Refused(mid, f, old(disk)[copy]))
        case KeepBoth =>
          if copy !in old(disk) then db.Tables() == mid && paths == old(paths) && copy !in disk && local in disk && disk[local] == d.hash
          else
          && copy in disk && disk[copy] == old(disk)[copy] && local in disk && disk[local] == d.hash && copy in paths
          && (copy !in old(paths) ==> Safe(db.Tables(), paths[copy], disk[copy]))
          && (copy in old(paths) && paths[copy] in mid.files && mid.files[paths[copy]].cloudStatus == Active ==>
                (Safe(db.Tables(), paths[copy], disk[copy]) <==> !Refused(mid, paths[copy], disk[copy])))
    {
      hide Safe, Refused, CancelPendingById, UpdateCloudState, RowsRight, FileBecomes, RowsDropped, Marked;
      if pick.None? || db.rows[pick.value].operation != Upsert {
        return Some(ConflictNotFound);
      }
      var r := pick.value;
      if r !in copies {
        return Some(CopyNotFound);
      }
      var copy := copies[r];
      DownloadTo(local, d);
      if d.Breaks? {
        return Some(DownloadFailed);
      }
      ghost var before := db.Tables();
      OthersKeepRowsRight(before, r, f, d.version, Some(d.hash), InConflict);
      OthersKeepRowsRight(UpdateCloudState(before, f, d.version, Some(d.hash), InConflict), r, f, 0, None, Synced);
      SettledFile(before, r, f, d.version, d.hash);
      db.UpdateCloudState(f, d.version, Some(d.hash), InConflict);
      if choice.KeepCloud? {
        disk := disk - {copy};
        var ok := db.CancelPendingById(r);
        return None;
      }
      if choice.KeepLocal? {
        if copy !in disk {
          return Some(CopyNotFound);  // copyFile throws
        }
        disk := disk[local := disk[copy]];
        disk := disk - {copy};
      }
      TakeUp(r, if choice.KeepLocal? then local else copy, missing, newFile, id, now, priority, backend);
      error := None;
    }

    /** The conflict row is cancelled and the file at the path handled like a fresh save. */
    method TakeUp(r: RowId, path: Path, missing: Option<FileId>, newFile: FileId, id: RowId, now: nat, priority: int, backend: Backend)
      requires Valid() && newFile !in db.files && id !in db.rows
      requires missing.Some? ==> missing.value in db.files && db.files[missing.value].cloudStatus == Active
      modifies this`paths, db
      ensures Valid() && (path in disk ==> path in paths)
      ensures forall p | p in old(paths) && Some(old(paths)[p]) != missing :: p in paths && paths[p] == old(paths)[p]
      ensures path !in disk ==> paths == old(paths) && db.Tables() == CancelPendingById(old(db.Tables()), r)
      ensures path in disk ==>
        var mid := CancelPendingById(old(db.Tables()), r); var f := paths[path];
        if path !in old(paths) then Safe(db.Tables(), f, disk[path])
        else f in mid.files && (mid.files[f].cloudStatus == Active ==> (Safe(db.Tables(), f, disk[path]) <==> !Refused(mid, f, disk[path])))
    {
      OthersKeepRowsRight(db.Tables(), r, newFile, 0, None, Synced);
      var ok := db.CancelPendingById(r);
      HandleFileReady(path, missing, newFile, id, now, priority, backend);
    }

    /** From the conflict to its resolution with nothing in between: what stood at the path before is
        back there, or kept beside the cloud's, and on its way to the cloud unless a stopped row
        already holds it. `missing` may be any other file whose content vanished a moment ago. */
    method ConflictResolved(r: RowId, choice: Choice, local: Path, copy: Path, d1: Download, d2: Download,
                            missing: Option<FileId>, newFile: FileId, id: RowId, now: nat, priority: int, backend: Backend) returns (error: Option<ConflictError>)
      requires Valid() && r in db.rows && db.rows[r].operation == Upsert && db.rows[r].fileId in db.files
      requires local in disk && local in paths && paths[local] == db.rows[r].fileId
      requires copy !in disk && copy != local && copy !in paths && newFile !in db.files && id !in db.rows
      requires missing.Some? ==> missing.value in db.files && missing.value != db.rows[r].fileId && db.files[missing.value].cloudStatus == Active
      modifies this, db
      ensures Valid() && local in paths && paths[local] == old(paths)[local]
      ensures d2.Breaks? ==> copy in disk && disk[copy] == old(disk)[local]
      ensures d2.Arrives? ==> error.None?
      ensures d2.Arrives? && choice == KeepBoth ==>
        local in disk && disk[local] == d2.hash && copy in disk && disk[copy] == old(disk)[local] && copy in paths && Safe(db.Tables(), paths[copy], disk[copy])
      ensures d2.Arrives? && choice == KeepLocal ==>
        && local in disk && disk[local] == old(disk)[local] && copy !in disk
        && var (f, mid) := (old(paths)[local], Settled(MarkRow(old(db.Tables()), r, InConflict, None), r, old(paths)[local], d2.version, d2.hash));
           (Safe(db.Tables(), f, disk[local]) <==> !Refused(mid, f, disk[local]))
           && (Refused(mid, f, disk[local]) ==> StoppedTwin(old(db.rows), r, f, disk[local]))
    {
      var f := db.rows[r].fileId;
      var hash := disk[local];
      var e := CreateConflict(r, local, copy, d1);
      ghost var mid := Settled(db.Tables(), r, f, if d2.Arrives? then d2.version else 0, if d2.Arrives? then d2.hash else 0);
      error := ResolveConflict(f, choice, Some(r), local, d2, missing, newFile, id, now, priority, backend);
      if d2.Arrives? {
        assert mid == Settled(MarkRow(old(db.Tables()), r, InConflict, None), r, f, d2.version, d2.hash);
        if choice == KeepLocal && Refused(mid, f, hash) {
          assert forall q | q in mid.rows :: q != r && q in old(db.rows) && mid.rows[q] == old(db.rows)[q];
          RefusedHasTwin(mid, f, hash);
        }
      }
    }
  }

  const FailedRow := NewUpsert(UpsertArgs(7, LocalFile(1, Some(5), Synced, Active), 9, 2, Bot, None), 0).(status := InError, attempts := 1)
  const HeldRow := Row(7, Upsert, Some(9), 1, Key(7, 1, None, WaitingAt("a")), Uploading, 1, 2, None, 1, None, Bot, None)

  /** Content 9 is queued on version 1 and fails for good. */
  method FailForGood() returns (db: LocalDb)
    ensures fresh(db) && db.rows == map[0 := FailedRow] && db.files == map[7 := LocalFile(1, Some(5), InError, Active)]
  {
    db := new LocalDb();
    db.UpsertRemote(7, 1, Some(5), Active);
    var args := UpsertArgs(7, db.files[7], 9, 2, Bot, None);
    var queued := db.QueueUpsert(args, 0, 0);
    assert db.rows == map[0 := NewUpsert(args, 0)];
    db.MarkUploading(0);
    db.MarkError(0);
  }

  /** It is saved again while another program holds the file; the row that waits for it gets it later. */
  method SaveAgain(db: LocalDb)
    requires db.rows == map[0 := FailedRow] && db.files == map[7 := LocalFile(1, Some(5), InError, Active)]
    modifies db
    ensures db.rows == map[0 := FailedRow, 1 := HeldRow] && db.files == map[7 := LocalFile(1, Some(5), Uploading, Active)]
  {
    db.QueueWaitingUpsert(7, "a", 1, Bot, 10, 1);
    assert db.rows == map[0 := FailedRow, 1 := HeldRow.(hash := None, status := RetryWait, attempts := 0, retryAt := Some(10))];
    db.MarkUploading(1);
    db.PreparePendingUpload(1, 9);
  }

  /** An input: after that the second row runs into a conflict, the cloud still being at version 1.
      Resolved for the local side, the content is back at its path and queued nowhere. */
  method ResolvedUnqueued() returns (desk: Desk)
    ensures fresh(desk) && fresh(desk.db) && desk.Valid()
    ensures "a" in desk.disk && desk.disk["a"] == 9 && "a" in desk.paths && desk.paths["a"] == 7 && 7 in desk.db.files
    ensures !Safe(desk.db.Tables(), 7, 9)
  {
    hide Safe, Refused, StoppedTwin;
    var db := FailForGood();
    SaveAgain(db);
    desk := new Desk(db);
    desk.disk, desk.paths := map["a" := 9], map["a" := 7];
    RefusedHere(db.Tables());
    var error := desk.ConflictResolved(1, KeepLocal, "a", "b", Breaks(None), Arrives(1, 5), None, 8, 2, 2, 2, Bot);
  }

  lemma RefusedHere(l: Local)
    requires l == Local(map[7 := LocalFile(1, Some(5), Uploading, Active)], map[0 := FailedRow, 1 := HeldRow])
    ensures var mid := Settled(MarkRow(l, 1, InConflict, None), 1, 7, 1, 5); 7 in mid.files && Refused(mid, 7, 9)
  {
    var mid := Settled(MarkRow(l, 1, InConflict, None), 1, 7, 1, 5);
    assert mid.rows == map[0 := FailedRow];
    assert 0 in mid.rows.Keys && mid.rows[0].key == UpsertKey(7, mid.files[7].version, 9, None);
  }
}
