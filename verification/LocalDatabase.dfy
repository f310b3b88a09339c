/** The client's tables in place: the LocalDb methods, statement by statement, proved against the
    functions of LocalQueue. */
module LocalDatabase {
  import opened Wrappers
  import opened CloudTables
  import opened LocalQueue

  predicate IsQueued(row: Row, a: UpsertArgs) {
    row.fileId == a.f && row.hash == Some(a.hash) && row.base == a.file.version && row.status == Pending
  }

  /** The file, if it is known, has this status now; nothing else about the files has changed. */
  predicate FileBecomes(files: map<FileId, LocalFile>, files': map<FileId, LocalFile>, f: FileId, status: SyncStatus) {
    files' == if f in files then files[f := files[f].(status := status)] else files
  }

  /** The row is this now, all others are as they were. */
  predicate RowBecomes(rows: map<RowId, Row>, rows': map<RowId, Row>, r: RowId, row: Row) {
    rows' == rows[r := row]
  }

  /** Exactly the rows of the file are gone. */
  predicate RowsDropped(rows: map<RowId, Row>, rows': map<RowId, Row>, f: FileId) {
    && (forall r | r in rows' :: r in rows && rows'[r] == rows[r] && rows[r].fileId != f)
    && (forall r | r in rows && rows[r].fileId != f :: r in rows')
  }

  /** Row and file take the status together, if the row is still there. */
  predicate Marked(files: map<FileId, LocalFile>, rows: map<RowId, Row>, files': map<FileId, LocalFile>, rows': map<RowId, Row>, r: RowId, row: Row) {
    if r in rows then RowBecomes(rows, rows', r, row) && FileBecomes(files, files', rows[r].fileId, row.status)
    else rows' == rows && files' == files
  }

  /** Why queueUpsert does nothing: the file is not active, holds the content already (unless it is
      restored), or has it queued. */
  predicate NothingToQueue(rows: map<RowId, Row>, a: UpsertArgs) {
    || a.file.cloudStatus != Active
    || (a.restoredFrom.None? && a.file.hash == Some(a.hash))
    || exists r | r in rows.Keys ::
         rows[r].fileId == a.f && rows[r].operation == Upsert && rows[r].hash == Some(a.hash) && rows[r].status in {Pending, Uploading, RetryWait}
  }

  /** No row waits for the content, and the key it would have is another row's. */
  predicate KeyIsTaken(rows: map<RowId, Row>, a: UpsertArgs) {
    && (forall r | r in rows.Keys :: !(rows[r].fileId == a.f && rows[r].operation == Upsert && rows[r].status == RetryWait && rows[r].hash.None?))
    && exists r | r in rows.Keys ::
         rows[r].key == Key(a.f, a.file.version, Some(a.hash), if a.restoredFrom.Some? then ForRestore(a.restoredFrom.value) else Plain)
  }

  /** It is pending, or waited until now at most. */
  predicate Due(row: Row, now: nat) {
    row.status == Pending || (row.status == RetryWait && (row.retryAt.Some? ==> row.retryAt.value <= now))
  }

  /** Every tenth time the oldest comes first, else the most urgent and of those the oldest. */
  predicate ComesFirst(a: Row, b: Row, preferOldest: bool) {
    if preferOldest || a.priority == b.priority then a.created <= b.created else a.priority < b.priority
  }

  /** The row that gets queued: the waiting one with its content filled in, or a new one. */
  predicate QueuedAs(rows: map<RowId, Row>, rows': map<RowId, Row>, a: UpsertArgs, r: RowId, now: nat) {
    var priority := if a.priority < 0 then 0 else if a.priority > 4 then 4 else a.priority;
    var key := Key(a.f, a.file.version, Some(a.hash), if a.restoredFrom.Some? then ForRestore(a.restoredFrom.value) else Plain);
    && (forall q | q in rows && q != r :: q in rows' && rows'[q] == rows[q]) && rows'.Keys == rows.Keys + {r}
    && if r in rows
       then rows[r].fileId == a.f && rows[r].operation == Upsert && rows[r].hash.None? && rows[r].status == RetryWait
            && rows'[r] == Row(a.f, Upsert, Some(a.hash), a.file.version, rows[r].key, Pending, rows[r].attempts, priority, None,
                               rows[r].created, rows[r].receipt, a.backend, a.restoredFrom)
       else rows'[r] == Row(a.f, Upsert, Some(a.hash), a.file.version, key, Pending, 0, priority, None, now, None, a.backend, a.restoredFrom)
            && forall q | q in rows :: rows[q].key != key
  }

  /** What waiting for a file held by another program does: its live row is put off, unless it is being
      uploaded, or a row without content is made, unless one waits for that path and version already. */
  predicate WaitsAs(files: map<FileId, LocalFile>, rows: map<RowId, Row>, files': map<FileId, LocalFile>, rows': map<RowId, Row>,
                    f: FileId, path: string, existing: Option<RowId>, id: RowId, backend: Backend, retryAt: nat, now: nat)
    requires f in files && (existing.Some? ==> existing.value in rows)
  {
    var key := Key(f, files[f].version, None, WaitingAt(path));
    if files[f].cloudStatus == Active && existing.Some? && rows[existing.value].status != Uploading then
      var was := rows[existing.value];
      RowBecomes(rows, rows', existing.value, was.(status := RetryWait, priority := if was.priority > 2 then 2 else was.priority, retryAt := Some(retryAt)))
      && FileBecomes(files, files', f, RetryWait)
    else if files[f].cloudStatus == Active && existing.None? && (forall r | r in rows.Keys :: rows[r].key != key) then
      RowBecomes(rows, rows', id, Row(f, Upsert, None, files[f].version, key, RetryWait, 0, 2, Some(retryAt), now, None, backend, None))
      && FileBecomes(files, files', f, RetryWait)
    else rows' == rows && files' == files
  }

  class LocalDb {
    var files: map<FileId, LocalFile>
    var rows: map<RowId, Row>

    constructor ()
      ensures Tables() == Local(map[], map[])
    {
      files, rows := map[], map[];
    }

    ghost function Tables(): Local
      reads this
    {
      Local(files, rows)
    }

    method SetFileStatus(f: FileId, status: SyncStatus)
      modifies this`files
      ensures Tables() == WithFileStatus(old(Tables()), f, status)
    {
      if f in files {
        files := files[f := files[f].(status := status)];
      }
    }

    /** SELECT ... ORDER BY created_at ASC LIMIT 1 over the rows that wait for content. */
    method OldestWaiting(f: FileId) returns (pick: Option<RowId>)
      ensures PicksWaiting(rows, f, pick)
    {
      pick := None;
      var left := rows.Keys;
      while left != {}
        invariant left <= rows.Keys
        invariant pick.None? ==> forall r | r in rows.Keys - left :: !IsWaiting(rows[r], f)
        invariant pick.Some? ==> pick.value in rows && IsWaiting(rows[pick.value], f)
        invariant pick.Some? ==> forall r | r in rows.Keys - left && IsWaiting(rows[r], f) :: rows[pick.value].created <= rows[r].created
        decreases left
      {
        var r :| r in left;
        left := left - {r};
        if IsWaiting(rows[r], f) && (pick.None? || rows[r].created < rows[pick.value].created) {
          pick := Some(r);
        }
      }
    }

    method QueueUpsert(a: UpsertArgs, id: RowId, now: nat) returns (queued: Option<RowId>)
      requires id !in rows
      modifies this
      ensures exists waiting ::
        && PicksWaiting(old(rows), a.f, waiting)
        && Tables() == LocalQueue.QueueUpsert(old(Tables()), a, waiting, id, now)
      ensures queued.Some? ==> queued.value in rows && IsQueued(rows[queued.value], a)
      ensures queued.None? ==> rows == old(rows) && files == old(files)
      ensures queued.None? <==> NothingToQueue(old(rows), a) || KeyIsTaken(old(rows), a)
      ensures queued.Some? ==> QueuedAs(old(rows), rows, a, queued.value, now) && FileBecomes(old(files), files, a.f, Pending)
    {
      var waiting := OldestWaiting(a.f);
      if UpsertSkipped(Local(files, rows), a) {
        assert Tables() == LocalQueue.QueueUpsert(old(Tables()), a, waiting, id, now);
        return None;
      }
      if waiting.Some? {
        var w := waiting.value;
        rows := rows[w := rows[w].(hash := Some(a.hash), base := a.file.version, backend := a.backend,
          restoredFrom := a.restoredFrom, status := Pending, priority := Clamp(a.priority), retryAt := None)];
        SetFileStatus(a.f, Pending);
        assert Tables() == LocalQueue.QueueUpsert(old(Tables()), a, waiting, id, now);
        return Some(w);
      }
      if KeyTaken(rows, UpsertKey(a.f, a.file.version, a.hash, a.restoredFrom)) {
        assert Tables() == LocalQueue.QueueUpsert(old(Tables()), a, waiting, id, now);
        return None;
      }
      rows := rows[id := NewUpsert(a, now)];
      SetFileStatus(a.f, Pending);
      assert Tables() == LocalQueue.QueueUpsert(old(Tables()), a, waiting, id, now);
      queued := Some(id);
    }

    method MarkUploading(r: RowId)
      modifies this
      ensures Tables() == LocalQueue.MarkUploading(old(Tables()), r)
      ensures r in old(rows) ==>
        Marked(old(files), old(rows), files, rows, r, old(rows)[r].(status := Uploading, attempts := old(rows)[r].attempts + 1))
      ensures r !in old(rows) ==> rows == old(rows) && files == old(files)
    {
      if r in rows {
        rows := rows[r := rows[r].(status := Uploading, attempts := rows[r].attempts + 1)];
        SetFileStatus(rows[r].fileId, Uploading);
      }
    }

    method MarkSynced(r: RowId, version: nat, hash: Option<Hash>)
      modifies this
      ensures Tables() == LocalQueue.MarkSynced(old(Tables()), r, version, hash)
      ensures rows == old(rows) - {r}
      ensures files == if r in old(rows) && old(rows)[r].fileId in old(files)
        then old(files)[old(rows)[r].fileId := LocalFile(version, hash, Synced, old(files)[old(rows)[r].fileId].cloudStatus)] else old(files)
    {
      if r !in rows { return; }
      var f := rows[r].fileId;
      if f in files {
        files := files[f := files[f].(version := version, hash := hash, status := Synced)];
      }
      rows := rows - {r};
    }

    /** The transaction updates row after row under UNIQUE(idempotency_key) and rolls back on the
        first clash, so either every queued row of the file is rebased or none is. */
    method RebaseQueuedForFile(f: FileId, base: nat) returns (ok: bool)
      modifies this`rows
      ensures rows == if ok then Rebased(old(rows), f, base) else old(rows)
      ensures ok ==> rows.Keys == old(rows).Keys && forall r | r in rows ::
        var was := old(rows)[r];
        rows[r] == if was.fileId != f || was.status !in {Pending, RetryWait} then was
          else was.(base := base, key := Key(f, base, was.hash, if was.hash.Some? then Plain else WaitingRow(r)))
      ensures old(UniqueKeysIn(rows)) ==> UniqueKeysIn(rows)
    {
      var before := rows;
      var left := set r | r in rows && rows[r].fileId == f && rows[r].status in {Pending, RetryWait};
      ghost var all := left;
      while left != {}
        invariant left <= all
        invariant rows.Keys == before.Keys
        invariant forall r | r in before :: rows[r] == if r in all - left then RebasedRow(r, before[r], base) else before[r]
        invariant UniqueKeysIn(before) ==> UniqueKeysIn(rows)
        decreases left
      {
        var r :| r in left;
        var row := RebasedRow(r, rows[r], base);
        if exists s | s in rows.Keys :: s != r && rows[s].key == row.key {
          rows := before;
          return false;
        }
        rows := rows[r := row];
        left := left - {r};
      }
      ok := true;
      assert rows == Rebased(before, f, base);
    }

    method MarkRetry(r: RowId, retryAt: nat)
      modifies this
      ensures Tables() == MarkRow(old(Tables()), r, RetryWait, Some(retryAt))
      ensures r in old(rows) ==> Marked(old(files), old(rows), files, rows, r, old(rows)[r].(status := RetryWait, retryAt := Some(retryAt)))
      ensures r !in old(rows) ==> rows == old(rows) && files == old(files)
    {
      if r in rows {
        rows := rows[r := rows[r].(status := RetryWait, retryAt := Some(retryAt))];
        SetFileStatus(rows[r].fileId, RetryWait);
      }
    }

    method MarkError(r: RowId)
      modifies this
      ensures Tables() == MarkRow(old(Tables()), r, InError, None)
      ensures r in old(rows) ==> Marked(old(files), old(rows), files, rows, r, old(rows)[r].(status := InError))
      ensures r !in old(rows) ==> rows == old(rows) && files == old(files)
    {
      if r in rows {
        rows := rows[r := rows[r].(status := InError)];
        SetFileStatus(rows[r].fileId, InError);
      }
    }

    method PreparePendingUpload(r: RowId, hash: Hash)
      modifies this`rows
      ensures Tables() == LocalQueue.PreparePendingUpload(old(Tables()), r, hash)
      ensures rows == if r in old(rows) && old(rows)[r].operation == Upsert
        then old(rows)[r := old(rows)[r].(hash := Some(hash), status := Uploading, retryAt := None)] else old(rows)
    {
      if r in rows && rows[r].operation == Upsert {
        rows := rows[r := rows[r].(hash := Some(hash), status := Uploading, retryAt := None)];
      }
    }

    method SetUploadReceipt(r: RowId, receipt: SentReceipt)
      modifies this`rows
      ensures Tables() == LocalQueue.SetUploadReceipt(old(Tables()), r, receipt)
      ensures rows == if r in old(rows) then old(rows)[r := old(rows)[r].(receipt := Some(receipt), backend := UserGroup)] else old(rows)
    {
      if r in rows {
        rows := rows[r := rows[r].(receipt := Some(receipt), backend := UserGroup)];
      }
    }

    method MarkPendingNoChange(r: RowId)
      modifies this
      ensures Tables() == LocalQueue.MarkPendingNoChange(old(Tables()), r)
      ensures rows == old(rows) - {r}
      ensures if r in old(rows) then FileBecomes(old(files), files, old(rows)[r].fileId, Synced) else files == old(files)
    {
      if r in rows {
        SetFileStatus(rows[r].fileId, Synced);
        rows := rows - {r};
      }
    }

    method RequeuePending(r: RowId) returns (ok: bool)
      modifies this
      ensures Tables() == LocalQueue.RequeuePending(old(Tables()), r)
      ensures ok <==> r in old(rows) && old(rows)[r].status != Uploading
      ensures ok ==> Marked(old(files), old(rows), files, rows, r, old(rows)[r].(status := Pending, priority := 2, retryAt := None))
      ensures !ok ==> rows == old(rows) && files == old(files)
    {
      if r !in rows || rows[r].status == Uploading {
        return false;
      }
      rows := rows[r := rows[r].(status := Pending, priority := 2, retryAt := None)];
      SetFileStatus(rows[r].fileId, Pending);
      ok := true;
    }

    /** Only uploads that have not begun and were not sent yet change their storage. */
    method SetPendingStorageBackendForFile(f: FileId, backend: Backend)
      modifies this`rows
      ensures Tables() == SetBackendForFile(old(Tables()), f, backend)
      ensures rows.Keys == old(rows).Keys && forall r | r in rows ::
        var was := old(rows)[r];
        if was.fileId == f && was.operation == Upsert && was.status in {Pending, RetryWait} && was.receipt.None?
        then rows[r] == was.(backend := backend) else rows[r] == was
    {
      rows := map r | r in rows :: if rows[r].fileId == f && rows[r].operation == Upsert
        && rows[r].status in {Pending, RetryWait} && rows[r].receipt == None then rows[r].(backend := backend) else rows[r];
    }

    /** A file that vanished locally is not deleted in the cloud; what never got there is kept queued. */
    method MarkMissing(f: FileId)
      modifies this
      ensures Tables() == LocalQueue.MarkMissing(old(Tables()), f)
      ensures if f in old(files) && old(files)[f].version > 0
        then RowsDropped(old(rows), rows, f) && FileBecomes(old(files), files, f, Synced)
        else rows == old(rows) && files == old(files)
    {
      if f in files && files[f].version > 0 {
        CancelPending(f);
        SetFileStatus(f, Synced);
      }
    }

    method RemoveUnsyncedFile(f: FileId)
      modifies this
      ensures Tables() == RemoveUnsynced(old(Tables()), f)
      ensures RowsDropped(old(rows), rows, f)
      ensures files == if f in old(files) && old(files)[f].version == 0 then old(files) - {f} else old(files)
    {
      CancelPending(f);
      if f in files && files[f].version == 0 {
        files := files - {f};
      }
    }

    /** The cloud's trash and deletions end the queued work of a file. */
    method MarkCloudStatus(f: FileId, cloudStatus: FileStatus)
      modifies this
      ensures Tables() == LocalQueue.MarkCloudStatus(old(Tables()), f, cloudStatus)
      ensures RowsDropped(old(rows), rows, f)
      ensures files == if f in old(files) then old(files)[f := old(files)[f].(status := Synced, cloudStatus := cloudStatus)] else old(files)
    {
      CancelPending(f);
      if f in files {
        files := files[f := files[f].(status := Synced, cloudStatus := cloudStatus)];
      }
    }

    method NewestLive(f: FileId) returns (pick: Option<RowId>)
      ensures PicksLive(rows, f, pick)
    {
      pick := None;
      var left := rows.Keys;
      while left != {}
        invariant left <= rows.Keys
        invariant pick.None? ==> forall r | r in rows.Keys - left :: !IsLiveUpsert(rows[r], f)
        invariant pick.Some? ==> pick.value in rows && IsLiveUpsert(rows[pick.value], f)
        invariant pick.Some? ==> forall r | r in rows.Keys - left && IsLiveUpsert(rows[r], f) :: rows[r].created <= rows[pick.value].created
        decreases left
      {
        var r :| r in left;
        left := left - {r};
        if IsLiveUpsert(rows[r], f) && (pick.None? || rows[pick.value].created < rows[r].created) {
          pick := Some(r);
        }
      }
    }

    method QueueWaitingUpsert(f: FileId, path: string, id: RowId, backend: Backend, retryAt: nat, now: nat)
      requires f in files && id !in rows
      modifies this
      ensures exists existing ::
        && PicksLive(old(rows), f, existing)
        && Tables() == QueueWaiting(old(Tables()), f, old(files)[f], path, existing, id, backend, retryAt, now)
      ensures exists existing ::
        && PicksLive(old(rows), f, existing)
        && WaitsAs(old(files), old(rows), files, rows, f, path, existing, id, backend, retryAt, now)
    {
      var file := files[f];
      ghost var before := Tables();
      var existing := NewestLive(f);
      if file.cloudStatus == Active {
        if existing.Some? {
          var row := rows[existing.value];
          if row.status != Uploading {
            rows := rows[existing.value := row.(status := RetryWait, priority := if row.priority < 2 then row.priority else 2, retryAt := Some(retryAt))];
            SetFileStatus(f, RetryWait);
          }
        } else {
          var key := Key(f, file.version, None, WaitingAt(path));
          if !KeyTaken(rows, key) {  // else the unique key aborts the transaction
            rows := rows[id := Row(f, Upsert, None, file.version, key, RetryWait, 0, 2, Some(retryAt), now, None, backend, None)];
            SetFileStatus(f, RetryWait);
          }
        }
      }
      assert PicksLive(before.rows, f, existing) && Tables() == QueueWaiting(before, f, before.files[f], path, existing, id, backend, retryAt, now);
      assert WaitsAs(before.files, before.rows, files, rows, f, path, existing, id, backend, retryAt, now);
    }

    method UpsertRemote(f: FileId, version: nat, hash: Option<Hash>, cloudStatus: FileStatus)
      modifies this`files
      ensures Tables() == LocalQueue.UpsertRemote(old(Tables()), f, version, hash, cloudStatus)
      ensures files == old(files)[f := LocalFile(version, hash, Synced, cloudStatus)]
    {
      files := files[f := LocalFile(version, hash, Synced, cloudStatus)];
    }

    method EnsureFile(f: FileId)
      modifies this`files
      ensures Tables() == LocalQueue.EnsureFile(old(Tables()), f)
      ensures files == if f in old(files) then old(files) else old(files)[f := LocalFile(0, None, Pending, Active)]
    {
      if f !in files {
        files := files[f := LocalFile(0, None, Pending, Active)];
      }
    }

    method CancelPending(f: FileId)
      modifies this`rows
      ensures Tables() == LocalQueue.CancelPending(old(Tables()), f)
      ensures RowsDropped(old(rows), rows, f)
    {
      rows := map r | r in rows && rows[r].fileId != f :: rows[r];
    }

    method CancelPendingById(r: RowId) returns (ok: bool)
      modifies this
      ensures Tables() == LocalQueue.CancelPendingById(old(Tables()), r)
      ensures ok <==> r in old(rows) && old(rows)[r].status != Uploading
      ensures !ok ==> rows == old(rows) && files == old(files)
      ensures ok ==>
        var f := old(rows)[r].fileId;
        rows == old(rows) - {r} && FileBecomes(old(files), files, f, if f in old(files) && old(files)[f].version > 0 then Synced else InError)
    {
      if r !in rows || rows[r].status == Uploading {
        return false;
      }
      var f := rows[r].fileId;
      rows := rows - {r};
      SetFileStatus(f, if f in files && files[f].version > 0 then Synced else InError);
      ok := true;
    }

    method MarkConflict(r: RowId)
      modifies this
      ensures Tables() == MarkRow(old(Tables()), r, InConflict, None)
      ensures r in old(rows) ==> Marked(old(files), old(rows), files, rows, r, old(rows)[r].(status := InConflict))
      ensures r !in old(rows) ==> rows == old(rows) && files == old(files)
    {
      if r in rows {
        rows := rows[r := rows[r].(status := InConflict)];
        SetFileStatus(rows[r].fileId, InConflict);
      }
    }

    method UpdateCloudState(f: FileId, version: nat, hash: Option<Hash>, status: SyncStatus)
      modifies this`files
      ensures Tables() == LocalQueue.UpdateCloudState(old(Tables()), f, version, hash, status)
      ensures files == if f in old(files) then old(files)[f := LocalFile(version, hash, status, Active)] else old(files)
    {
      if f in files {
        files := files[f := LocalFile(version, hash, status, Active)];
      }
    }

    method RecoverInterruptedJobs()
      modifies this`rows
      ensures Tables() == LocalQueue.RecoverInterruptedJobs(old(Tables()))
      ensures rows.Keys == old(rows.Keys) && files == old(files)
      ensures forall r | r in rows ::
        if old(rows)[r].status == Uploading then rows[r] == old(rows)[r].(status := Pending, retryAt := None) else rows[r] == old(rows)[r]
    {
      rows := map r | r in rows :: if rows[r].status == Uploading then rows[r].(status := Pending, retryAt := None) else rows[r];
    }

    method NextReadyPending(excluded: set<FileId>, preferOldest: bool, now: nat) returns (pick: Option<RowId>)
      ensures PicksNext(rows, excluded, preferOldest, now, pick)
      ensures pick.Some? ==> pick.value in rows && Due(rows[pick.value], now) && rows[pick.value].fileId !in excluded
      ensures forall r | r in rows && Due(rows[r], now) && rows[r].fileId !in excluded ::
        pick.Some? && ComesFirst(rows[pick.value], rows[r], preferOldest)
    {
      pick := None;
      var left := rows.Keys;
      while left != {}
        invariant left <= rows.Keys
        invariant pick.None? ==> forall r | r in rows.Keys - left :: !Eligible(rows, excluded, now, r)
        invariant pick.Some? ==> Eligible(rows, excluded, now, pick.value)
        invariant pick.Some? ==> forall r | r in rows.Keys - left && Eligible(rows, excluded, now, r) :: NotAfter(rows[pick.value], rows[r], preferOldest)
        decreases left
      {
        var r :| r in left;
        left := left - {r};
        if Eligible(rows, excluded, now, r) && (pick.None? || !NotAfter(rows[pick.value], rows[r], preferOldest)) {
          pick := Some(r);
        }
      }
    }
  }
}
