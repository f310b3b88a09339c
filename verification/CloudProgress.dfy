/** What a request comes to when nobody gets in its way: the worker does accept what is asked of it, exactly
    when it should. */
module CloudProgress {
  import opened Wrappers
  import opened CloudTables
  import opened CloudHandlers
  import opened CloudHistory
  import opened KeyReplays

  /** A request that has just arrived, its statements allowed and its ids fresh. */
  ghost predicate Fresh(w: World, pid: Pid, req: Request, x: Input) {
    && pid in w.procs && w.procs[pid] == Proc(req, FirstPc(req))
    && x.ok && x.id !in w.t.intents && x.id !in w.t.files && FreshVersionId(w.t.versions, x.id)
  }

  function ReplyOf(w: World, pid: Pid): Option<Reply> {
    if pid in w.procs && w.procs[pid].pc.Done? then Some(w.procs[pid].pc.reply) else None
  }

  lemma Begun(w: World, pid: Pid, x: Input)
    requires pid in w.procs
    ensures Drive(w, pid, x, 0) == Only(w, pid, w.t, w.procs[pid].pc)
  {
  }

  // ---------------------------------------------------------------- preflight

  /** The file the preflight asks about is there, active, at the base, and holds other content. */
  predicate Awaits(t: Tables, q: PreflightInput) {
    && q.fileId.Some? && q.fileId.value in t.files
    && var row := t.files[q.fileId.value];
       && row.status == Active && (q.workspace.Some? ==> q.workspace.value == row.workspace)
       && row.currentVersion == q.base && !(row.currentVersion > 0 && row.currentHash == Some(q.hash))
  }

  function Reserving(t: Tables, q: PreflightInput, i: IntentId): Tables
    requires Awaits(t, q)
  {
    var f := q.fileId.value;
    t.(intents := t.intents[i := IntentRow(q.key, f, q.user, t.files[f].workspace, q.logicalName, q.base, q.hash, q.restoredFrom, q.backend, Reserved)])
  }

  /** An edit of a file that stands where the client thinks it does gets its intent. */
  lemma EditIsAccepted(w: World, pid: Pid, q: PreflightInput, x: Input)
    requires Fresh(w, pid, Preflight(q), x) && Awaits(w.t, q) && KeyFree(w.t.intents, q.user, q.key)
    ensures Drive(w, pid, x, 5) == Only(w, pid, Reserving(w.t, q, x.id), Done(UploadRequired(q.fileId.value, x.id)))
  {
    hide UploadStep, CommitStep, RestoreStep, RewindStep, DownloadStep, FreshVersionId, SamePath, PathTaken;
    var t, f := w.t, q.fileId.value;
    var row := t.files[f];
    Begun(w, pid, x);
    DriveBy(w, pid, x, 0, t, PfFile, t, PfKey(Some(row), row.workspace));
    DriveBy(w, pid, x, 1, t, PfKey(Some(row), row.workspace), t, PfDecide(f, row, None));
    DriveBy(w, pid, x, 2, t, PfDecide(f, row, None), t, PfKeyAgain(f, row));
    DriveBy(w, pid, x, 3, t, PfKeyAgain(f, row), t, PfInsert(f, row));
    DriveBy(w, pid, x, 4, t, PfInsert(f, row), Reserving(t, q, x.id), Done(UploadRequired(f, x.id)));
  }

  /** The file is not known yet, and its path is free. */
  ghost predicate IsNew(t: Tables, q: PreflightInput) {
    && (q.fileId.Some? ==> q.fileId.value !in t.files)
    && (forall g | g in t.files.Keys :: !Occupies(t.files[g], Workspace(q), q.relativePath))
    && q.base == 0
  }

  function Workspace(q: PreflightInput): nat {
    if q.workspace.Some? then q.workspace.value else q.defaultWorkspace
  }

  function NewFile(q: PreflightInput): FileRow {
    FileRow(Workspace(q), q.logicalName, q.relativePath, Active, 0, None)
  }

  /** So does the first upload of a new one, which gets its row at version 0. */
  lemma NewFileIsAccepted(w: World, pid: Pid, q: PreflightInput, x: Input)
    requires Fresh(w, pid, Preflight(q), x) && IsNew(w.t, q) && KeyFree(w.t.intents, q.user, q.key)
    ensures var f := if q.fileId.Some? then q.fileId.value else x.id;
      Drive(w, pid, x, 7) == Only(w, pid,
        w.t.(files := w.t.files[f := NewFile(q)],
             intents := w.t.intents[x.id := IntentRow(q.key, f, q.user, Workspace(q), q.logicalName, 0, q.hash, q.restoredFrom, q.backend, Reserved)]),
        Done(UploadRequired(f, x.id)))
  {
    hide PreflightStep, UploadStep, CommitStep, RestoreStep, RewindStep, DownloadStep, FreshVersionId;
    var t, ws, row := w.t, Workspace(q), NewFile(q);
    var f := if q.fileId.Some? then q.fileId.value else x.id;
    var t1 := t.(files := t.files[f := row]);
    var t2 := t1.(intents := t.intents[x.id := IntentRow(q.key, f, q.user, ws, q.logicalName, 0, q.hash, q.restoredFrom, q.backend, Reserved)]);
    Begun(w, pid, x);
    NewFileSteps(t, q, x);
    DriveBy(w, pid, x, 0, t, PfFile, t, PfKey(None, ws));
    DriveBy(w, pid, x, 1, t, PfKey(None, ws), t, PfCreate(ws));
    DriveBy(w, pid, x, 2, t, PfCreate(ws), t1, PfRead(f));
    DriveBy(w, pid, x, 3, t1, PfRead(f), t1, PfDecide(f, row, None));
    DriveBy(w, pid, x, 4, t1, PfDecide(f, row, None), t1, PfKeyAgain(f, row));
    DriveBy(w, pid, x, 5, t1, PfKeyAgain(f, row), t1, PfInsert(f, row));
    DriveBy(w, pid, x, 6, t1, PfInsert(f, row), t2, Done(UploadRequired(f, x.id)));
  }

  lemma NewFileSteps(t: Tables, q: PreflightInput, x: Input)
    requires x.ok && x.id !in t.intents && x.id !in t.files && IsNew(t, q) && KeyFree(t.intents, q.user, q.key)
    ensures var (ws, row) := (Workspace(q), NewFile(q)); var f := if q.fileId.Some? then q.fileId.value else x.id;
      var t1 := t.(files := t.files[f := row]);
      && PreflightStep(t, q, PfFile, x) == Stay(t, PfKey(None, ws))
      && PreflightStep(t, q, PfKey(None, ws), x) == Stay(t, PfCreate(ws))
      && PreflightStep(t, q, PfCreate(ws), x) == Stay(t1, PfRead(f))
      && PreflightStep(t1, q, PfRead(f), x) == Stay(t1, PfDecide(f, row, None))
      && PreflightStep(t1, q, PfDecide(f, row, None), x) == Stay(t1, PfKeyAgain(f, row))
      && PreflightStep(t1, q, PfKeyAgain(f, row), x) == Stay(t1, PfInsert(f, row))
      && PreflightStep(t1, q, PfInsert(f, row), x)
         == Stay(t1.(intents := t.intents[x.id := IntentRow(q.key, f, q.user, ws, q.logicalName, 0, q.hash, q.restoredFrom, q.backend, Reserved)]),
                 Done(UploadRequired(f, x.id)))
  {
    hide Occupies;
  }

  // ---------------------------------------------------------------- upload and receipt

  function Stored(t: Tables, i: IntentId): Tables
    requires i in t.intents
  {
    t.(intents := t.intents[i := t.intents[i].(status := Uploaded)])
  }

  /** Content may be brought for an intent of one's own that is only reserved, over its own channel, and
      must be its content. The bot's also needs the file to be at the base still. */
  predicate MayStore(t: Tables, req: Request) {
    match req
    case Upload(user, i, content) =>
      && i in t.intents && t.intents[i].owner == user
      && (t.intents[i].status in {Committed, Uploaded}
          || (t.intents[i].status == Reserved && t.intents[i].backend != UserGroup && t.intents[i].hash == content
              && t.intents[i].fileId in t.files && t.files[t.intents[i].fileId].currentVersion == t.intents[i].baseVersion))
    case Receipt(user, i, content) =>
      && i in t.intents && t.intents[i].owner == user && t.intents[i].backend == UserGroup
      && (t.intents[i].status in {Committed, Uploaded} || (t.intents[i].status == Reserved && t.intents[i].hash == content))
    case _ => false
  }

  /** What stands in the way, by what the intent and its file say. */
  function WhyNotStored(t: Tables, req: Request): ErrorCode
    requires req.Upload? || req.Receipt?
  {
    var i := req.intentId;
    if i !in t.intents || t.intents[i].owner != req.user then IntentNotFound
    else if req.Receipt? && t.intents[i].backend != UserGroup then BackendMismatch
    else if t.intents[i].status == Abandoned then NotUploadable
    else if req.Upload? && t.intents[i].backend == UserGroup then BackendMismatch
    else if req.Upload? && t.intents[i].fileId !in t.files then ErrorCode.Refused
    else if req.Upload? && t.files[t.intents[i].fileId].currentVersion != t.intents[i].baseVersion then BaseVersionConflict
    else HashMismatch
  }

  function AfterStore(t: Tables, i: IntentId): Tables
    requires i in t.intents
  {
    if t.intents[i].status == Reserved then Stored(t, i) else t
  }

  lemma UploadAlone(w: World, pid: Pid, user: UserId, i: IntentId, content: Hash, x: Input)
    requires Fresh(w, pid, Upload(user, i, content), x)
    ensures var w' := Drive(w, pid, x, 4);
      if MayStore(w.t, Upload(user, i, content)) then w' == Only(w, pid, AfterStore(w.t, i), Done(UploadOk(i)))
      else ReplyOf(w', pid) == Some(Failed(WhyNotStored(w.t, Upload(user, i, content)))) && w'.t == w.t
  {
    hide PreflightStep, CommitStep, RestoreStep, RewindStep, DownloadStep, FreshVersionId;
    var t := w.t;
    Begun(w, pid, x);
    var pc1 := UploadStep(t, user, i, content, UpIntent, x).pc;
    DriveBy(w, pid, x, 0, t, UpIntent, t, pc1);
    var pc2 := UploadStep(t, user, i, content, pc1, x).pc;
    DriveBy(w, pid, x, 1, t, pc1, t, pc2);
    var pc3 := UploadStep(t, user, i, content, pc2, x).pc;
    DriveBy(w, pid, x, 2, t, pc2, t, pc3);
    if pc3.UpSave? {
      assert Stored(t, i).intents[i] != t.intents[i];
      DriveBy(w, pid, x, 3, t, pc3, Stored(t, i), Done(UploadOk(i)));
    } else {
      DriveBy(w, pid, x, 3, t, pc3, t, pc3);
    }
  }

  lemma ReceiptAlone(w: World, pid: Pid, user: UserId, i: IntentId, content: Hash, x: Input)
    requires Fresh(w, pid, Receipt(user, i, content), x)
    ensures var w' := Drive(w, pid, x, 2);
      if MayStore(w.t, Receipt(user, i, content)) then w' == Only(w, pid, AfterStore(w.t, i), Done(UploadOk(i)))
      else ReplyOf(w', pid) == Some(Failed(WhyNotStored(w.t, Receipt(user, i, content)))) && w'.t == w.t
  {
    hide PreflightStep, CommitStep, RestoreStep, RewindStep, DownloadStep, FreshVersionId;
    var t := w.t;
    Begun(w, pid, x);
    var pc1 := UploadStep(t, user, i, content, RcIntent, x).pc;
    DriveBy(w, pid, x, 0, t, RcIntent, t, pc1);
    if pc1.RcSave? {
      assert Stored(t, i).intents[i] != t.intents[i];
      DriveBy(w, pid, x, 1, t, pc1, Stored(t, i), Done(UploadOk(i)));
    } else {
      DriveBy(w, pid, x, 1, t, pc1, t, pc1);
    }
  }

  // ---------------------------------------------------------------- commit, restore, rewind

  /** The file stands at the base, and may be active where it stands. */
  predicate Free(t: Tables, f: FileId, base: nat) {
    f in t.files && t.files[f].currentVersion == base && !PathTaken(t.files, f, t.files[f].workspace, t.files[f].relativePath)
  }

  /** An intent is committed if it was before, or if its content is stored and either goes on top of the
      base it was made for or is what the file holds already. */
  predicate MayCommit(t: Tables, user: UserId, i: IntentId) {
    && i in t.intents && t.intents[i].owner == user
    && var row := t.intents[i];
       && row.fileId in t.files
       && (row.status == Committed
           || (row.status == Uploaded && (Free(t, row.fileId, row.baseVersion)
                || (t.files[row.fileId].currentVersion != row.baseVersion && t.files[row.fileId].currentHash == Some(row.hash)))))
  }

  function WhyNotCommitted(t: Tables, user: UserId, i: IntentId): ErrorCode {
    if i !in t.intents || t.intents[i].owner != user then IntentNotFound
    else
      var row := t.intents[i];
      if row.status == Committed then FileNotFound
      else if row.status != Uploaded then NotCommittable
      else if row.fileId !in t.files then ErrorCode.Refused
      else if t.files[row.fileId].currentVersion != row.baseVersion then BaseVersionConflict
      else PersistFailed
  }

  lemma CommitAlone(w: World, pid: Pid, user: UserId, i: IntentId, x: Input)
    requires Fresh(w, pid, Commit(user, i), x) && Dense(w.t)
    ensures var r := ReplyOf(Drive(w, pid, x, 3), pid);
      && r.Some? && (r.value.CommitOk? <==> MayCommit(w.t, user, i))
      && (!MayCommit(w.t, user, i) ==> r.value == Failed(WhyNotCommitted(w.t, user, i)))
  {
    hide PreflightStep, UploadStep, RestoreStep, RewindStep, DownloadStep, CommitBatch, SamePath, PathTaken;
    var t := w.t;
    Begun(w, pid, x);
    var pc1 := CommitStep(t, user, i, CmIntent, x).pc;
    DriveBy(w, pid, x, 0, t, CmIntent, t, pc1);
    var pc2 := CommitStep(t, user, i, pc1, x).pc;
    DriveBy(w, pid, x, 1, t, pc1, t, pc2);
    assert Drive(w, pid, x, 3) == Next(Drive(w, pid, x, 2), Run(pid, x));
  }

  /** A stored intent at its base becomes the file's next version. */
  lemma CommitLands(w: World, pid: Pid, user: UserId, i: IntentId, x: Input)
    requires Fresh(w, pid, Commit(user, i), x) && Dense(w.t)
    requires i in w.t.intents && w.t.intents[i].owner == user && w.t.intents[i].status == Uploaded && Free(w.t, w.t.intents[i].fileId, w.t.intents[i].baseVersion)
    ensures var w' := Drive(w, pid, x, 3); var (f, n, hash) := (w.t.intents[i].fileId, w.t.intents[i].baseVersion + 1, w.t.intents[i].hash);
      && pid in w'.procs && w'.procs[pid].pc == Done(CommitOk(f, n, hash))
      && f in w'.t.files && w'.t.files[f].currentVersion == n && w'.t.files[f].currentHash == Some(hash)
  {
    hide PreflightStep, UploadStep, RestoreStep, RewindStep, DownloadStep, AgedVersions, SamePath, PathTaken;
    var t, seen := w.t, Seen(i, w.t.intents[i]);
    var file := t.files[seen.row.fileId];
    Begun(w, pid, x);
    DriveBy(w, pid, x, 0, t, CmIntent, t, CmFile(seen));
    DriveBy(w, pid, x, 1, t, CmFile(seen), t, CmBatch(seen, file));
    assert Drive(w, pid, x, 3) == Next(Drive(w, pid, x, 2), Run(pid, x));
  }

  predicate MayRestore(t: Tables, f: FileId, version: nat, base: nat) {
    Free(t, f, base) && (f, version) in t.versions && t.versions[(f, version)].status != Expired
  }

  lemma RestoreAlone(w: World, pid: Pid, user: UserId, f: FileId, version: nat, base: nat, x: Input)
    requires Fresh(w, pid, Restore(user, f, version, base), x) && Dense(w.t)
    ensures var r := ReplyOf(Drive(w, pid, x, 3), pid);
      && r.Some? && (r.value.RestoreOk? <==> MayRestore(w.t, f, version, base))
      && (!MayRestore(w.t, f, version, base) ==> r.value == Failed(
            if f !in w.t.files then ErrorCode.Refused
            else if w.t.files[f].currentVersion != base then BaseVersionConflict
            else if (f, version) !in w.t.versions || w.t.versions[(f, version)].status == Expired then VersionNotAvailable
            else PersistFailed))
  {
    hide PreflightStep, UploadStep, CommitStep, RewindStep, DownloadStep, RestoreBatch, SamePath, PathTaken;
    var t := w.t;
    Begun(w, pid, x);
    var pc1 := RestoreStep(t, f, version, base, RsFile, x).pc;
    DriveBy(w, pid, x, 0, t, RsFile, t, pc1);
    var pc2 := RestoreStep(t, f, version, base, pc1, x).pc;
    DriveBy(w, pid, x, 1, t, pc1, t, pc2);
    assert Drive(w, pid, x, 3) == Next(Drive(w, pid, x, 2), Run(pid, x));
  }

  lemma RewindAlone(w: World, pid: Pid, f: FileId, version: nat, x: Input)
    requires Fresh(w, pid, RewindVersion(f, version), x) && Dense(w.t)
    ensures var r := ReplyOf(Drive(w, pid, x, 3), pid);
      && r.Some? && (r.value.RewindOk? || r.value.Failed?)
      && (r.value.RewindOk? <==> f in w.t.files && (f, version) in w.t.versions && w.t.versions[(f, version)].status != Expired)
      && (!r.value.RewindOk? ==> r.value == Failed(if f in w.t.files then VersionNotAvailable else ErrorCode.Refused))
  {
    hide PreflightStep, UploadStep, CommitStep, RestoreStep, DownloadStep, RewindBatch, SamePath, PathTaken;
    var t := w.t;
    Begun(w, pid, x);
    var pc1 := RewindStep(t, f, version, RwFile, x).pc;
    DriveBy(w, pid, x, 0, t, RwFile, t, pc1);
    var pc2 := RewindStep(t, f, version, pc1, x).pc;
    DriveBy(w, pid, x, 1, t, pc1, t, pc2);
    assert Drive(w, pid, x, 3) == Next(Drive(w, pid, x, 2), Run(pid, x));
  }

  // ---------------------------------------------------------------- races

  /** Whoever comes second is told of the conflict, whoever meets a constraint of the database is told to try again, and
      neither has changed anything. */
  lemma SecondIsToldSo(t: Tables, user: UserId, i: IntentId, seen: Seen, file: FileRow, f: FileId, version: nat, base: nat, source: VersionRow, x: Input)
    requires FreshVersionId(t.versions, x.id) && Dense(t)
    ensures var o := CommitStep(t, user, i, CmBatch(seen, file), x);
      !(seen.row.fileId in t.files && t.files[seen.row.fileId].workspace == file.workspace && Free(t, seen.row.fileId, seen.row.baseVersion)) ==>
        o == Fail(t, if AtBase(t.files, seen.row.fileId, file.workspace, seen.row.baseVersion) then PersistFailed else BaseVersionConflict)
    ensures var o := RestoreStep(t, f, version, base, RsBatch(file, source), x);
      !(f in t.files && t.files[f].workspace == file.workspace && Free(t, f, file.currentVersion)) ==>
        o == Fail(t, if AtBase(t.files, f, file.workspace, file.currentVersion) then PersistFailed else BaseVersionConflict)
  {
    hide SamePath, FreshVersionId;
  }

  lemma DownloadAlone(w: World, pid: Pid, f: FileId, x: Input)
    requires Fresh(w, pid, Download(f), x)
    ensures var w' := Drive(w, pid, x, 1);
      if f in w.t.files && w.t.files[f].currentVersion > 0
      then w' == Only(w, pid, w.t, Done(Content(f, w.t.files[f].currentVersion, w.t.files[f].currentHash)))
      else ReplyOf(w', pid) == Some(Failed(if f in w.t.files then VersionNotAvailable else ErrorCode.Refused)) && w'.t == w.t
  {
    hide PreflightStep, UploadStep, CommitStep, RestoreStep, RewindStep, FreshVersionId;
    Begun(w, pid, x);
    DriveBy(w, pid, x, 0, w.t, DlFile, w.t, DownloadStep(w.t, f, DlFile, x).pc);
  }
}
