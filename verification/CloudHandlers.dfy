/** The worker's sync handlers, one SQL statement at a time.

    A request is a process with a program counter; every counter value carries what the handler
    has read so far, so it may be stale. A run interleaves the statements of any number of requests
    in any order, together with every other update of file metadata. */
module CloudHandlers {
  import opened Wrappers
  import opened CloudTables

  type Pid = nat

  datatype PreflightInput = PreflightInput(
    user: UserId,
    fileId: Option<FileId>,
    workspace: Option<nat>,
    defaultWorkspace: nat,
    logicalName: string,
    relativePath: string,
    hash: Hash,
    base: nat,
    key: Key,
    backend: Backend,
    restoredFrom: Option<nat>)

  datatype Request =
    | Preflight(q: PreflightInput)
    | Upload(user: UserId, intentId: IntentId, content: Hash)
    | Receipt(user: UserId, intentId: IntentId, content: Hash)
    | Commit(user: UserId, intentId: IntentId)
    | Restore(user: UserId, fileId: FileId, version: nat, base: nat)
    | RewindVersion(fileId: FileId, version: nat)
    | Download(fileId: FileId)

  datatype ErrorCode =
    | Refused  // access, lease, storage or path check said no
    | FileNotFound | FileNotActive | WorkspaceMismatch | KeyReused | IntentAbandoned | IntentNotFound
    | NotUploadable | BackendMismatch | HashMismatch | NotCommittable | BaseVersionConflict
    | PersistFailed | VersionNotAvailable

  datatype Reply =
    | Noop(fileId: FileId, version: nat, hash: Hash)
    | Conflict(fileId: FileId, version: nat, current: Option<Hash>)
    | AlreadyCommitted(fileId: FileId, intentId: IntentId, version: nat, current: Option<Hash>)
    | CommitRequired(fileId: FileId, intentId: IntentId)
    | UploadRequired(fileId: FileId, intentId: IntentId)
    | UploadOk(intentId: IntentId)
    | CommitOk(fileId: FileId, version: nat, hash: Hash)
    | RestoreOk(fileId: FileId, version: nat, hash: Hash)
    | RewindOk(fileId: FileId, version: nat, hash: Hash)
    | Content(fileId: FileId, version: nat, current: Option<Hash>)
    | Failed(code: ErrorCode)

  /** An intent row as some earlier SELECT returned it. */
  datatype Seen = Seen(id: IntentId, row: IntentRow)

  datatype Pc =
    // handlePreflight
    | PfFile
    | PfKey(known: Option<FileRow>, ws: nat)
    | PfReplayFile(replay: Seen, ws: nat)
    | PfCreate(ws: nat)
    | PfRead(f: FileId)
    | PfDecide(f: FileId, file: FileRow, replayed: Option<Seen>)
    | PfKeyAgain(f: FileId, file: FileRow)
    | PfFresh(f: FileId, seen: Seen)
    | PfInsert(f: FileId, file: FileRow)
    // handleUpload, handleUploadReceipt
    | UpIntent | UpFile(seen: Seen) | UpStore(seen: Seen) | UpSave(seen: Seen)
    | RcIntent | RcSave(seen: Seen)
    // handleCommit, commitUploadedIntent
    | CmIntent | CmAnswer(seen: Seen) | CmFile(seen: Seen) | CmAbandon(seen: Seen, file: FileRow) | CmBatch(seen: Seen, file: FileRow)
    // handleRestore
    | RsFile | RsSource(file: FileRow) | RsBatch(file: FileRow, source: VersionRow)
    // completeVersionRewindItem
    | RwFile | RwSource(file: FileRow) | RwBatch(file: FileRow, source: VersionRow)
    // handleDownload
    | DlFile
    | Done(reply: Reply)

  datatype Proc = Proc(req: Request, pc: Pc)

  datatype Cause = ByIntent(intentId: IntentId) | ByRestore | ByRewind

  /** One inserted version row, recorded when its batch commits. */
  datatype Creation = Creation(fileId: FileId, version: nat, cause: Cause)

  /** What the environment decides in a step: whether access, lease, storage and path checks pass,
      the fresh id drawn, and the retention settings read. */
  datatype Input = Input(ok: bool, id: nat, userSetting: Option<int>, deployment: Option<int>)

  datatype Outcome = Outcome(t: Tables, pc: Pc, created: Option<Creation>)

  function Stay(t: Tables, pc: Pc): Outcome {
    Outcome(t, pc, None)
  }

  function Fail(t: Tables, code: ErrorCode): Outcome {
    Stay(t, Done(Failed(code)))
  }

  function FirstPc(req: Request): Pc {
    match req
    case Preflight(_) => PfFile
    case Upload(_, _, _) => UpIntent
    case Receipt(_, _, _) => RcIntent
    case Commit(_, _) => CmIntent
    case Restore(_, _, _, _) => RsFile
    case RewindVersion(_, _) => RwFile
    case Download(_) => DlFile
  }

  // ---------------------------------------------------------------- handlePreflight

  ghost function FindKey(t: Tables, owner: UserId, key: Key): (r: Option<Seen>)
    ensures r.Some? ==> r.value.id in t.intents && r.value.row == t.intents[r.value.id] && r.value.row.owner == owner && r.value.row.key == key
    ensures r.None? ==> KeyFree(t.intents, owner, key)
  {
    if i :| i in t.intents && t.intents[i].owner == owner && t.intents[i].key == key then Some(Seen(i, t.intents[i])) else None
  }

  /** The replayed intent was made by this very request (lines 1069-1079). */
  predicate Replays(q: PreflightInput, ws: nat, row: IntentRow) {
    && (q.fileId.Some? ==> q.fileId.value == row.fileId)
    && row.workspace == ws && row.logicalName == q.logicalName
    && row.hash == q.hash && row.baseVersion == q.base && row.backend == q.backend
  }

  /** What a found intent is answered with once the file stands at the base version. */
  function Answer(t: Tables, f: FileId, seen: Seen): Outcome {
    match seen.row.status
    case Committed => Stay(t, PfFresh(f, seen))
    case Uploaded => Stay(t, Done(CommitRequired(f, seen.id)))
    case Abandoned => Fail(t, IntentAbandoned)
    case Reserved => Stay(t, Done(UploadRequired(f, seen.id)))
  }

  ghost function PreflightStep(t: Tables, q: PreflightInput, pc: Pc, x: Input): Outcome {
    match pc
    case PfFile =>
      if q.fileId.Some? && q.fileId.value in t.files then
        var row := t.files[q.fileId.value];
        if !x.ok then Fail(t, Refused)
        else if q.workspace.Some? && q.workspace.value != row.workspace then Fail(t, WorkspaceMismatch)
        else if row.status != Active then Fail(t, FileNotActive)
        else Stay(t, PfKey(Some(row), row.workspace))
      else if !x.ok then Fail(t, Refused)
      else Stay(t, PfKey(None, if q.workspace.Some? then q.workspace.value else q.defaultWorkspace))
    case PfKey(known, ws) =>
      var found := FindKey(t, q.user, q.key);
      if found.Some? then
        if Replays(q, ws, found.value.row) then Stay(t, PfReplayFile(found.value, ws)) else Fail(t, KeyReused)
      else if !x.ok then Fail(t, Refused)
      else if known.Some? && q.fileId.Some? then Stay(t, PfDecide(q.fileId.value, known.value, None))
      else Stay(t, PfCreate(ws))
    case PfReplayFile(replay, ws) =>
      if replay.row.fileId !in t.files then Fail(t, FileNotFound)
      else
        var row := t.files[replay.row.fileId];
        if !x.ok then Fail(t, Refused)
        else if row.status != Active || row.workspace != ws || !SamePath(row.relativePath, q.relativePath) then Fail(t, KeyReused)
        else Stay(t, PfDecide(replay.row.fileId, row, Some(replay)))
    case PfCreate(ws) =>
      var f := if q.fileId.Some? then q.fileId.value else x.id;
      if !x.ok then Fail(t, Refused)
      else if f in t.files || PathTaken(t.files, f, ws, q.relativePath) then Fail(t, PersistFailed)
      else Stay(InsertFile(t, f, FileRow(ws, q.logicalName, q.relativePath, Active, 0, None)), PfRead(f))
    case PfRead(f) =>
      if f !in t.files then Fail(t, FileNotFound)
      else if !x.ok then Fail(t, Refused)
      else Stay(t, PfDecide(f, t.files[f], None))
    case PfDecide(f, file, replayed) =>
      if file.currentVersion > 0 && !x.ok then Fail(t, Refused)
      else if file.currentHash == Some(q.hash) && file.currentVersion > 0 then Stay(t, Done(Noop(f, file.currentVersion, q.hash)))
      else if file.currentVersion != q.base then Stay(t, Done(Conflict(f, file.currentVersion, file.currentHash)))
      else if replayed.Some? then Answer(t, f, replayed.value)
      else Stay(t, PfKeyAgain(f, file))
    case PfKeyAgain(f, file) =>
      var found := FindKey(t, q.user, q.key);
      if found.None? then Stay(t, PfInsert(f, file))
      else
        var row := found.value.row;
        if row.fileId != f || row.hash != q.hash || row.baseVersion != q.base || row.backend != q.backend then Fail(t, KeyReused)
        else Answer(t, f, found.value)
    case PfFresh(f, seen) =>
      if f !in t.files then Fail(t, FileNotFound)
      else if !x.ok then Fail(t, Refused)
      else Stay(t, Done(AlreadyCommitted(f, seen.id, t.files[f].currentVersion, t.files[f].currentHash)))
    case PfInsert(f, file) =>
      if x.id in t.intents || !KeyFree(t.intents, q.user, q.key) then Fail(t, PersistFailed)
      else Stay(InsertIntent(t, x.id, IntentRow(q.key, f, q.user, file.workspace, q.logicalName, q.base, q.hash, q.restoredFrom, q.backend, Reserved)),
                Done(UploadRequired(f, x.id)))
    case _ => Stay(t, pc)
  }

  // ---------------------------------------------------------------- handleUpload, handleUploadReceipt

  function UploadStep(t: Tables, user: UserId, i: IntentId, content: Hash, pc: Pc, x: Input): Outcome {
    match pc
    case UpIntent =>
      if i !in t.intents || t.intents[i].owner != user then Fail(t, IntentNotFound)
      else if t.intents[i].status in {Committed, Uploaded} then Stay(t, Done(UploadOk(i)))
      else if t.intents[i].status != Reserved then Fail(t, NotUploadable)
      else if t.intents[i].backend == UserGroup then Fail(t, BackendMismatch)
      else Stay(t, UpFile(Seen(i, t.intents[i])))
    case UpFile(seen) =>
      if !x.ok || seen.row.fileId !in t.files then Fail(t, Refused)
      else if t.files[seen.row.fileId].currentVersion != seen.row.baseVersion then Fail(t, BaseVersionConflict)
      else if content != seen.row.hash then Fail(t, HashMismatch)
      else Stay(t, UpStore(seen))
    case UpStore(seen) =>
      // the storage provider is called here; it stores a new object or fails
      if !x.ok then Fail(t, Refused) else Stay(t, UpSave(seen))
    case UpSave(seen) =>
      if t == MarkUploaded(t, i, user) then Fail(t, PersistFailed)
      else Stay(MarkUploaded(t, i, user), Done(UploadOk(i)))
    case RcIntent =>
      if i !in t.intents || t.intents[i].owner != user then Fail(t, IntentNotFound)
      else if t.intents[i].backend != UserGroup then Fail(t, BackendMismatch)
      else if t.intents[i].status in {Committed, Uploaded} then Stay(t, Done(UploadOk(i)))
      else if t.intents[i].status != Reserved then Fail(t, NotUploadable)
      else if content != t.intents[i].hash then Fail(t, HashMismatch)
      else Stay(t, RcSave(Seen(i, t.intents[i])))
    case RcSave(seen) =>
      if t == MarkUploaded(t, i, user) then Fail(t, PersistFailed)
      else Stay(MarkUploaded(t, i, user), Done(UploadOk(i)))
    case _ => Stay(t, pc)
  }

  // ---------------------------------------------------------------- handleCommit

  ghost function CommitStep(t: Tables, user: UserId, i: IntentId, pc: Pc, x: Input): Outcome {
    match pc
    case CmIntent =>
      if i !in t.intents || t.intents[i].owner != user then Fail(t, IntentNotFound)
      else if t.intents[i].status == Committed then Stay(t, CmAnswer(Seen(i, t.intents[i])))
      else if t.intents[i].status != Uploaded then Fail(t, NotCommittable)
      else Stay(t, CmFile(Seen(i, t.intents[i])))
    case CmAnswer(seen) =>
      if seen.row.fileId !in t.files then Fail(t, FileNotFound)
      else if !x.ok then Fail(t, Refused)
      else
        var file := t.files[seen.row.fileId];
        Stay(t, Done(CommitOk(seen.row.fileId, file.currentVersion, if file.currentHash.Some? then file.currentHash.value else seen.row.hash)))
    case CmFile(seen) =>
      if !x.ok || seen.row.fileId !in t.files then Fail(t, Refused)
      else
        var file := t.files[seen.row.fileId];
        if file.currentVersion == seen.row.baseVersion then Stay(t, CmBatch(seen, file))
        else if file.currentHash == Some(seen.row.hash) then Stay(t, CmAbandon(seen, file))
        else Fail(t, BaseVersionConflict)
    case CmAbandon(seen, file) =>
      Stay(MarkAbandoned(t, i), Done(CommitOk(seen.row.fileId, file.currentVersion, seen.row.hash)))
    case CmBatch(seen, file) =>
      var a := CommitAdvance(seen.row, file, x);
      if !FreshVersionId(t.versions, a.versionId) then Stay(t, pc)
      else if !Wins(t, a) then Fail(t, if Aborts(t, a) then PersistFailed else BaseVersionConflict)
      else Outcome(CommitBatch(t, a, i, user, seen.row.logicalName),
                   Done(CommitOk(a.fileId, a.base + 1, a.hash)), Some(Creation(a.fileId, a.base + 1, ByIntent(i))))
    case _ => Stay(t, pc)
  }

  function CommitAdvance(row: IntentRow, file: FileRow, x: Input): Advance {
    Advance(x.id, row.fileId, file.workspace, row.baseVersion, row.hash, row.restoredFrom,
            row.baseVersion + 1 - GetRetention(x.userSetting, x.deployment))
  }

  // ---------------------------------------------------------------- handleRestore, rewind of a version

  function RestoreAdvance(f: FileId, version: nat, file: FileRow, source: VersionRow, x: Input): Advance {
    Advance(x.id, f, file.workspace, file.currentVersion, source.hash, Some(version),
            file.currentVersion + 1 - GetRetention(x.userSetting, x.deployment))
  }

  ghost function RestoreStep(t: Tables, f: FileId, version: nat, base: nat, pc: Pc, x: Input): Outcome {
    match pc
    case RsFile =>
      if !x.ok || f !in t.files then Fail(t, Refused)
      else if t.files[f].currentVersion != base then Fail(t, BaseVersionConflict)
      else Stay(t, RsSource(t.files[f]))
    case RsSource(file) =>
      if (f, version) !in t.versions || t.versions[(f, version)].status == Expired then Fail(t, VersionNotAvailable)
      else if !x.ok then Fail(t, Refused)
      else Stay(t, RsBatch(file, t.versions[(f, version)]))
    case RsBatch(file, source) =>
      var a := RestoreAdvance(f, version, file, source, x);
      if !FreshVersionId(t.versions, a.versionId) then Stay(t, pc)
      else if !Wins(t, a) then Fail(t, if Aborts(t, a) then PersistFailed else BaseVersionConflict)
      else Outcome(RestoreBatch(t, a), Done(RestoreOk(f, a.base + 1, a.hash)), Some(Creation(f, a.base + 1, ByRestore)))
    case _ => Stay(t, pc)
  }

  ghost function RewindStep(t: Tables, f: FileId, version: nat, pc: Pc, x: Input): Outcome {
    match pc
    case RwFile =>
      if !x.ok || f !in t.files then Fail(t, Refused) else Stay(t, RwSource(t.files[f]))
    case RwSource(file) =>
      if (f, version) !in t.versions || t.versions[(f, version)].status == Expired then Fail(t, VersionNotAvailable)
      else if !x.ok then Fail(t, Refused)
      else Stay(t, RwBatch(file, t.versions[(f, version)]))
    case RwBatch(file, source) =>
      var a := RestoreAdvance(f, version, file, source, x);
      if f !in t.files || !FreshVersionId(t.versions, a.versionId) then Stay(t, pc)
      else if (f, a.base + 1) in t.versions then Fail(t, PersistFailed)
      else Outcome(RewindBatch(t, a), Done(RewindOk(f, a.base + 1, a.hash)), Some(Creation(f, a.base + 1, ByRewind)))
    case _ => Stay(t, pc)
  }

  function DownloadStep(t: Tables, f: FileId, pc: Pc, x: Input): Outcome {
    match pc
    case DlFile =>
      if !x.ok || f !in t.files then Fail(t, Refused)
      else if t.files[f].currentVersion == 0 then Fail(t, VersionNotAvailable)
      else Stay(t, Done(Content(f, t.files[f].currentVersion, t.files[f].currentHash)))
    case _ => Stay(t, pc)
  }

  ghost function Step(t: Tables, p: Proc, x: Input): Outcome {
    match p.req
    case Preflight(q) => PreflightStep(t, q, p.pc, x)
    case Upload(user, i, content) => UploadStep(t, user, i, content, p.pc, x)
    case Receipt(user, i, content) => UploadStep(t, user, i, content, p.pc, x)
    case Commit(user, i) => CommitStep(t, user, i, p.pc, x)
    case Restore(_, f, version, base) => RestoreStep(t, f, version, base, p.pc, x)
    case RewindVersion(f, version) => RewindStep(t, f, version, p.pc, x)
    case Download(f) => DownloadStep(t, f, p.pc, x)
  }

  // ---------------------------------------------------------------- what a process has read stays true

  ghost predicate SeenFile(t: Tables, f: FileId, row: FileRow) {
    && f in t.files
    && row.workspace == t.files[f].workspace
    && row.currentVersion <= t.files[f].currentVersion
    && PairReal(t, f, row.currentVersion, row.currentHash)
  }

  predicate Ended(status: IntentStatus) {
    status in {Committed, Abandoned}
  }

  ghost predicate SeenIntent(t: Tables, seen: Seen) {
    && seen.id in t.intents
    && SameIntent(seen.row, t.intents[seen.id])
    && seen.row.fileId in t.files
    && seen.row.baseVersion <= t.files[seen.row.fileId].currentVersion
    && (Ended(seen.row.status) ==> InChainAbove(t, seen.row.fileId, seen.row.baseVersion, seen.row.hash))
  }

  predicate Answers(q: PreflightInput, f: FileId, row: IntentRow) {
    row.owner == q.user && row.key == q.key && row.fileId == f && row.hash == q.hash && row.baseVersion == q.base
  }

  predicate ForFile(q: PreflightInput, f: FileId) {
    q.fileId.Some? ==> q.fileId.value == f
  }

  /** The intent's content is a version of its file, above the version it was based on. */
  ghost predicate InHistory(t: Tables, f: FileId, i: IntentId) {
    i in t.intents && t.intents[i].fileId == f && InChainAbove(t, f, t.intents[i].baseVersion, t.intents[i].hash)
  }

  /** What a finished request may rely on, for good. */
  ghost predicate ReplyHolds(t: Tables, req: Request, r: Reply) {
    match r
    case Noop(f, v, h) => v > 0 && PairReal(t, f, v, Some(h)) && (req.Preflight? ==> ForFile(req.q, f) && h == req.q.hash)
    case Conflict(f, v, h) => PairReal(t, f, v, h) && (req.Preflight? ==> ForFile(req.q, f))
    case AlreadyCommitted(f, _, v, h) => v > 0 && PairReal(t, f, v, h)
      && (req.Preflight? ==> ForFile(req.q, f) && InChainAbove(t, f, req.q.base, req.q.hash))
    case CommitRequired(f, i) => i in t.intents && t.intents[i].status != Reserved
      && (req.Preflight? ==> ForFile(req.q, f) && Answers(req.q, f, t.intents[i]))
    case UploadRequired(f, i) => i in t.intents && (req.Preflight? ==> ForFile(req.q, f) && Answers(req.q, f, t.intents[i]))
    case UploadOk(i) => i in t.intents && t.intents[i].status != Reserved
    case CommitOk(f, v, h) => v > 0 && PairReal(t, f, v, Some(h))
      && (req.Commit? ==> InHistory(t, f, req.intentId))
    case RestoreOk(f, v, h) => v > 0 && PairReal(t, f, v, Some(h))
      && (req.Restore? ==> f == req.fileId && v == req.base + 1 && PairReal(t, f, req.version, Some(h)))
    case RewindOk(f, v, h) => v > 0 && PairReal(t, f, v, Some(h))
      && (req.RewindVersion? ==> f == req.fileId && PairReal(t, f, req.version, Some(h)))
    case Content(f, v, h) => v > 0 && PairReal(t, f, v, h) && (req.Download? ==> f == req.fileId)
    case Failed(_) => true
  }

  ghost predicate SourceRead(t: Tables, f: FileId, version: nat, source: VersionRow) {
    version > 0 && PairReal(t, f, version, Some(source.hash))
  }

  ghost predicate ValidPc(t: Tables, req: Request, pc: Pc) {
    match pc
    case PfKey(known, _) => req.Preflight? && (known.Some? ==> req.q.fileId.Some? && SeenFile(t, req.q.fileId.value, known.value))
    case PfReplayFile(replay, _) => req.Preflight? && SeenIntent(t, replay)
      && ForFile(req.q, replay.row.fileId) && Answers(req.q, replay.row.fileId, replay.row)
    case PfRead(f) => req.Preflight? && ForFile(req.q, f)
    case PfDecide(f, file, replayed) => req.Preflight? && ForFile(req.q, f) && SeenFile(t, f, file)
      && (replayed.Some? ==> SeenIntent(t, replayed.value) && Answers(req.q, f, replayed.value.row))
      && (replayed.Some? && Ended(replayed.value.row.status) ==> file.currentVersion > req.q.base)
    case PfKeyAgain(f, file) => req.Preflight? && ForFile(req.q, f) && SeenFile(t, f, file) && file.currentVersion == req.q.base
    case PfFresh(f, seen) => req.Preflight? && ForFile(req.q, f) && SeenIntent(t, seen) && Answers(req.q, f, seen.row) && Ended(seen.row.status)
    case PfInsert(f, file) => req.Preflight? && ForFile(req.q, f) && SeenFile(t, f, file) && file.currentVersion == req.q.base
    case CmAnswer(seen) => req.Commit? && SeenIntent(t, seen) && seen.id == req.intentId && Ended(seen.row.status)
    case CmFile(seen) => req.Commit? && SeenIntent(t, seen) && seen.id == req.intentId
    case CmAbandon(seen, file) => req.Commit? && SeenIntent(t, seen) && seen.id == req.intentId
      && SeenFile(t, seen.row.fileId, file) && file.currentVersion > seen.row.baseVersion && file.currentHash == Some(seen.row.hash)
    case CmBatch(seen, file) => req.Commit? && SeenIntent(t, seen) && seen.id == req.intentId
    case RsSource(file) => req.Restore? && SeenFile(t, req.fileId, file) && file.currentVersion == req.base
    case RsBatch(file, source) => req.Restore? && SeenFile(t, req.fileId, file) && file.currentVersion == req.base
      && SourceRead(t, req.fileId, req.version, source)
    case RwSource(file) => req.RewindVersion? && SeenFile(t, req.fileId, file)
    case RwBatch(file, source) => req.RewindVersion? && SeenFile(t, req.fileId, file) && SourceRead(t, req.fileId, req.version, source)
    case Done(reply) => ReplyHolds(t, req, reply)
    case _ => true
  }

  lemma SeenFileStays(t: Tables, t': Tables, f: FileId, row: FileRow)
    requires Grows(t, t') && SeenFile(t, f, row)
    ensures SeenFile(t', f, row)
  {
    PairStaysReal(t, t', f, row.currentVersion, row.currentHash);
  }

  lemma SeenIntentStays(t: Tables, t': Tables, seen: Seen)
    requires Grows(t, t') && SeenIntent(t, seen)
    ensures SeenIntent(t', seen)
  {
    if Ended(seen.row.status) { StaysInChain(t, t', seen.row.fileId, seen.row.baseVersion, seen.row.hash); }
    hide InChainAbove, PairReal;
  }

  /** Whatever statement anyone else executes, a reply keeps being true. */
  lemma ReplyStays(t: Tables, t': Tables, req: Request, r: Reply)
    requires Grows(t, t') && ReplyHolds(t, req, r)
    ensures ReplyHolds(t', req, r)
  {
    match r
    case AlreadyCommitted(f, _, v, h) =>
      PairStaysReal(t, t', f, v, h);
      if req.Preflight? { StaysInChain(t, t', f, req.q.base, req.q.hash); }
    case CommitOk(f, v, h) =>
      PairStaysReal(t, t', f, v, Some(h));
      if req.Commit? { StaysInChain(t, t', f, t.intents[req.intentId].baseVersion, t.intents[req.intentId].hash); }
    case RestoreOk(f, v, h) =>
      PairStaysReal(t, t', f, v, Some(h));
      if req.Restore? { PairStaysReal(t, t', f, req.version, Some(h)); }
    case RewindOk(f, v, h) =>
      PairStaysReal(t, t', f, v, Some(h));
      if req.RewindVersion? { PairStaysReal(t, t', f, req.version, Some(h)); }
    case Noop(f, v, h) => PairStaysReal(t, t', f, v, Some(h));
    case Conflict(f, v, h) => PairStaysReal(t, t', f, v, h);
    case Content(f, v, h) => PairStaysReal(t, t', f, v, h);
    case _ =>
  }

  predicate OfPreflight(pc: Pc) {
    pc.PfKey? || pc.PfReplayFile? || pc.PfRead? || pc.PfDecide? || pc.PfKeyAgain? || pc.PfFresh? || pc.PfInsert?
  }

  lemma PreflightStaysValid(t: Tables, t': Tables, req: Request, pc: Pc)
    requires Grows(t, t') && ValidPc(t, req, pc) && OfPreflight(pc)
    ensures ValidPc(t', req, pc)
  {
    hide Grows, SeenFile, SeenIntent, PairReal, InChainAbove, ReplyHolds, Answers, ForFile, Ended, SourceRead;
    if pc.PfKey? {
      if pc.known.Some? { SeenFileStays(t, t', req.q.fileId.value, pc.known.value); }
    } else if pc.PfReplayFile? {
      SeenIntentStays(t, t', pc.replay);
    } else if pc.PfFresh? {
      SeenIntentStays(t, t', pc.seen);
    } else if pc.PfDecide? {
      SeenFileStays(t, t', pc.f, pc.file);
      if pc.replayed.Some? { SeenIntentStays(t, t', pc.replayed.value); }
    } else if pc.PfKeyAgain? || pc.PfInsert? {
      SeenFileStays(t, t', pc.f, pc.file);
    }
  }

  lemma CommitStaysValid(t: Tables, t': Tables, req: Request, pc: Pc)
    requires Grows(t, t') && ValidPc(t, req, pc) && (pc.CmAnswer? || pc.CmFile? || pc.CmAbandon? || pc.CmBatch?)
    ensures ValidPc(t', req, pc)
  {
    hide Grows, SeenFile, SeenIntent, PairReal, InChainAbove, ReplyHolds, Answers, ForFile, Ended, SourceRead;
    SeenIntentStays(t, t', pc.seen);
    if pc.CmAbandon? { SeenFileStays(t, t', pc.seen.row.fileId, pc.file); }
  }

  lemma SourceStays(t: Tables, t': Tables, f: FileId, version: nat, source: VersionRow)
    requires Grows(t, t') && SourceRead(t, f, version, source)
    ensures SourceRead(t', f, version, source)
  {
    hide Grows, PairReal;
    PairStaysReal(t, t', f, version, Some(source.hash));
  }

  lemma ValidStays(t: Tables, t': Tables, req: Request, pc: Pc)
    requires Grows(t, t') && ValidPc(t, req, pc)
    ensures ValidPc(t', req, pc)
  {
    if OfPreflight(pc) {
      hide Grows, ValidPc;
      PreflightStaysValid(t, t', req, pc);
    } else if pc.CmAnswer? || pc.CmFile? || pc.CmAbandon? || pc.CmBatch? {
      hide Grows, ValidPc;
      CommitStaysValid(t, t', req, pc);
    } else {
      OthersStayValid(t, t', req, pc);
    }
  }

  lemma OthersStayValid(t: Tables, t': Tables, req: Request, pc: Pc)
    requires Grows(t, t') && ValidPc(t, req, pc) && !OfPreflight(pc) && !pc.CmAnswer? && !pc.CmFile? && !pc.CmAbandon? && !pc.CmBatch?
    ensures ValidPc(t', req, pc)
  {
    hide Grows, SeenFile, SeenIntent, PairReal, InChainAbove, ReplyHolds, Answers, ForFile, Ended, SourceRead;
    match pc
    case RsSource(file) => SeenFileStays(t, t', req.fileId, file);
    case RsBatch(file, source) => SeenFileStays(t, t', req.fileId, file); SourceStays(t, t', req.fileId, req.version, source);
    case RwSource(file) => SeenFileStays(t, t', req.fileId, file);
    case RwBatch(file, source) => SeenFileStays(t, t', req.fileId, file); SourceStays(t, t', req.fileId, req.version, source);
    case Done(reply) => ReplyStays(t, t', req, reply);
    case _ =>
  }

  // ---------------------------------------------------------------- one step keeps everything

  /** A step's creation is the file's next version, put there while the file stood one below. */
  ghost predicate CreatesNext(t: Tables, o: Outcome) {
    match o.created
    case None => o.t.versions.Keys == t.versions.Keys
    case Some(c) =>
      && c.fileId in t.files && c.fileId in o.t.files
      && c.version == t.files[c.fileId].currentVersion + 1 == o.t.files[c.fileId].currentVersion
      && o.t.versions.Keys == t.versions.Keys + {(c.fileId, c.version)}
  }

  ghost predicate StepOk(t: Tables, req: Request, o: Outcome) {
    Consistent(o.t) && Grows(t, o.t) && ValidPc(o.t, req, o.pc) && CreatesNext(t, o)
  }

  lemma SettledAt(t: Tables, i: IntentId)
    requires Consistent(t) && i in t.intents
    ensures SeenIntent(t, Seen(i, t.intents[i]))
  {
  }

  lemma RowSeen(t: Tables, f: FileId)
    requires Consistent(t) && f in t.files
    ensures SeenFile(t, f, t.files[f])
  {
  }

  /** An ended intent's content lies above its base, so its file has moved on. */
  lemma EndedMovedOn(t: Tables, f: FileId, base: nat, hash: Hash)
    requires Consistent(t) && f in t.files && InChainAbove(t, f, base, hash)
    ensures t.files[f].currentVersion > base
  {
  }

  lemma StayKeeps(t: Tables, req: Request, o: Outcome)
    requires Consistent(t) && o.t == t && o.created == None && ValidPc(t, req, o.pc)
    ensures StepOk(t, req, o)
  {
    GrowsRefl(t);
    hide Consistent, Grows, ValidPc;
  }

  lemma PreflightLookups(t: Tables, q: PreflightInput, pc: Pc, x: Input)
    requires Consistent(t) && ValidPc(t, Preflight(q), pc) && (pc.PfKey? || pc.PfKeyAgain?)
    ensures PreflightStep(t, q, pc, x).t == t && PreflightStep(t, q, pc, x).created == None
    ensures ValidPc(t, Preflight(q), PreflightStep(t, q, pc, x).pc)
  {
    hide Consistent, InChainAbove, IntentsGrow, PairReal;
    var found := FindKey(t, q.user, q.key);
    if found.Some? { SettledAt(t, found.value.id); }
  }

  lemma PreflightReads(t: Tables, q: PreflightInput, pc: Pc, x: Input)
    requires Consistent(t) && ValidPc(t, Preflight(q), pc) && !pc.PfCreate? && !pc.PfInsert? && !pc.PfKey? && !pc.PfKeyAgain?
    ensures PreflightStep(t, q, pc, x).t == t && PreflightStep(t, q, pc, x).created == None
    ensures ValidPc(t, Preflight(q), PreflightStep(t, q, pc, x).pc)
  {
    match pc {
      case PfFile => hide Consistent, ValidPc, PreflightStep; FileRead(t, q, pc, x);
      case PfReplayFile(_, _) => hide Consistent, ValidPc, PreflightStep; ReplayRead(t, q, pc, x);
      case PfRead(_) => hide Consistent, ValidPc, PreflightStep; FileRead(t, q, pc, x);
      case PfDecide(_, _, _) => hide Consistent, ValidPc, PreflightStep; Decided(t, q, pc, x);
      case PfFresh(_, _) => hide Consistent, ValidPc, PreflightStep; FreshRead(t, q, pc, x);
      case _ => hide Consistent, ValidPc;
    }
  }

  lemma FileRead(t: Tables, q: PreflightInput, pc: Pc, x: Input)
    requires Consistent(t) && ValidPc(t, Preflight(q), pc) && (pc.PfFile? || pc.PfRead?)
    ensures PreflightStep(t, q, pc, x).t == t && PreflightStep(t, q, pc, x).created == None
    ensures ValidPc(t, Preflight(q), PreflightStep(t, q, pc, x).pc)
  {
    hide Consistent, InChainAbove, FindKey, SeenFile, SeenIntent, PairReal, Answers;
    if pc.PfFile? {
      if q.fileId.Some? && q.fileId.value in t.files { RowSeen(t, q.fileId.value); }
    } else if pc.f in t.files {
      RowSeen(t, pc.f);
    }
  }

  lemma ReplayRead(t: Tables, q: PreflightInput, pc: Pc, x: Input)
    requires Consistent(t) && ValidPc(t, Preflight(q), pc) && pc.PfReplayFile?
    ensures PreflightStep(t, q, pc, x).t == t && PreflightStep(t, q, pc, x).created == None
    ensures ValidPc(t, Preflight(q), PreflightStep(t, q, pc, x).pc)
  {
    hide Consistent, InChainAbove, FindKey, SeenFile, ForFile, PairReal, SamePath;
    var f := pc.replay.row.fileId;
    if f in t.files {
      RowSeen(t, f);
      if Ended(pc.replay.row.status) { EndedMovedOn(t, f, q.base, q.hash); }
    }
  }

  lemma Decided(t: Tables, q: PreflightInput, pc: Pc, x: Input)
    requires Consistent(t) && ValidPc(t, Preflight(q), pc) && pc.PfDecide?
    ensures PreflightStep(t, q, pc, x).t == t && PreflightStep(t, q, pc, x).created == None
    ensures ValidPc(t, Preflight(q), PreflightStep(t, q, pc, x).pc)
  {
    hide Consistent, InChainAbove, FindKey, ForFile, PairReal;
  }

  lemma FreshRead(t: Tables, q: PreflightInput, pc: Pc, x: Input)
    requires Consistent(t) && ValidPc(t, Preflight(q), pc) && pc.PfFresh?
    ensures PreflightStep(t, q, pc, x).t == t && PreflightStep(t, q, pc, x).created == None
    ensures ValidPc(t, Preflight(q), PreflightStep(t, q, pc, x).pc)
  {
    hide Consistent, InChainAbove, FindKey, ForFile, PairReal;
    if pc.f in t.files {
      RowSeen(t, pc.f);
      EndedMovedOn(t, pc.f, q.base, q.hash);
    }
  }

  lemma PreflightWrites(t: Tables, q: PreflightInput, pc: Pc, x: Input)
    requires Consistent(t) && ValidPc(t, Preflight(q), pc) && (pc.PfCreate? || pc.PfInsert?)
    ensures StepOk(t, Preflight(q), PreflightStep(t, q, pc, x))
  {
    hide Dense, Linked, PointersReal, UniqueIds, RetentionShape, IntentsSettled, UniqueKeys, FilesGrow, VersionsGrow, IntentsGrow, InChainAbove, PairReal, KeyFree;
    GrowsRefl(t);
    if pc.PfCreate? {
      var f := if q.fileId.Some? then q.fileId.value else x.id;
      InsertFileKeeps(t, f, FileRow(pc.ws, q.logicalName, q.relativePath, Active, 0, None));
    } else {
      InsertIntentKeeps(t, x.id, IntentRow(q.key, pc.f, q.user, pc.file.workspace, q.logicalName, q.base, q.hash, q.restoredFrom, q.backend, Reserved));
    }
  }

  lemma PreflightKeeps(t: Tables, q: PreflightInput, pc: Pc, x: Input)
    requires Consistent(t) && ValidPc(t, Preflight(q), pc)
    ensures StepOk(t, Preflight(q), PreflightStep(t, q, pc, x))
  {
    hide Consistent, StepOk, PreflightStep, ValidPc;
    if pc.PfCreate? || pc.PfInsert? {
      PreflightWrites(t, q, pc, x);
    } else {
      if pc.PfKey? || pc.PfKeyAgain? { PreflightLookups(t, q, pc, x); } else { PreflightReads(t, q, pc, x); }
      StayKeeps(t, Preflight(q), PreflightStep(t, q, pc, x));
    }
  }

  lemma UploadSaves(t: Tables, req: Request, user: UserId, i: IntentId)
    requires Consistent(t) && MarkUploaded(t, i, user) != t
    ensures StepOk(t, req, Stay(MarkUploaded(t, i, user), Done(UploadOk(i))))
  {
    MarkUploadedKeeps(t, i, user);
    hide Consistent, Grows;
  }

  lemma UploadReads(t: Tables, req: Request, user: UserId, i: IntentId, content: Hash, pc: Pc, x: Input)
    requires ValidPc(t, req, pc) && !pc.UpSave? && !pc.RcSave?
    requires req == Upload(user, i, content) || req == Receipt(user, i, content)
    ensures UploadStep(t, user, i, content, pc, x).t == t && UploadStep(t, user, i, content, pc, x).created == None
    ensures ValidPc(t, req, UploadStep(t, user, i, content, pc, x).pc)
  {
    hide MarkUploaded, SeenFile, SeenIntent, PairReal, InChainAbove, ForFile, Answers;
  }

  lemma UploadKeeps(t: Tables, req: Request, user: UserId, i: IntentId, content: Hash, pc: Pc, x: Input)
    requires Consistent(t) && ValidPc(t, req, pc)
    requires req == Upload(user, i, content) || req == Receipt(user, i, content)
    ensures StepOk(t, req, UploadStep(t, user, i, content, pc, x))
  {
    hide Consistent, StepOk, MarkUploaded;
    var o := UploadStep(t, user, i, content, pc, x);
    if pc.UpSave? || pc.RcSave? {
      if MarkUploaded(t, i, user) == t { StayKeeps(t, req, o); } else { UploadSaves(t, req, user, i); }
    } else {
      UploadReads(t, req, user, i, content, pc, x);
      StayKeeps(t, req, o);
    }
  }

  lemma CommitReads(t: Tables, user: UserId, i: IntentId, pc: Pc, x: Input)
    requires Consistent(t) && ValidPc(t, Commit(user, i), pc) && !pc.CmAbandon? && !pc.CmBatch?
    ensures CommitStep(t, user, i, pc, x).t == t && CommitStep(t, user, i, pc, x).created == None
    ensures ValidPc(t, Commit(user, i), CommitStep(t, user, i, pc, x).pc)
  {
    hide Consistent, ValidPc, CommitStep;
    if pc.CmIntent? {
      CommitIntentRead(t, user, i, x);
    } else if pc.CmAnswer? {
      CommitAnswerRead(t, user, i, pc, x);
    } else if pc.CmFile? {
      SeenByCommit(t, user, i, pc);
      CommitFileRead(t, user, i, pc.seen, x);
    } else {
      CommitOver(t, user, i, pc, x);
    }
  }

  lemma SeenByCommit(t: Tables, user: UserId, i: IntentId, pc: Pc)
    requires ValidPc(t, Commit(user, i), pc) && pc.CmFile?
    ensures SeenIntent(t, pc.seen) && pc.seen.id == i
  {
    hide SeenIntent;
  }

  lemma CommitAnswerRead(t: Tables, user: UserId, i: IntentId, pc: Pc, x: Input)
    requires Consistent(t) && ValidPc(t, Commit(user, i), pc) && pc.CmAnswer?
    ensures CommitStep(t, user, i, pc, x).t == t && CommitStep(t, user, i, pc, x).created == None
    ensures ValidPc(t, Commit(user, i), CommitStep(t, user, i, pc, x).pc)
  {
    hide Consistent, SeenIntent, InChainAbove, MarkAbandoned, CommitBatch;
    CommitAnswered(t, user, pc.seen);
  }

  lemma CommitOver(t: Tables, user: UserId, i: IntentId, pc: Pc, x: Input)
    requires ValidPc(t, Commit(user, i), pc) && !pc.CmIntent? && !pc.CmAnswer? && !pc.CmFile? && !pc.CmAbandon? && !pc.CmBatch?
    ensures CommitStep(t, user, i, pc, x).t == t && CommitStep(t, user, i, pc, x).created == None
    ensures ValidPc(t, Commit(user, i), CommitStep(t, user, i, pc, x).pc)
  {
    hide ValidPc, MarkAbandoned, CommitBatch;
  }

  lemma CommitIntentRead(t: Tables, user: UserId, i: IntentId, x: Input)
    requires Consistent(t)
    ensures CommitStep(t, user, i, CmIntent, x).t == t && CommitStep(t, user, i, CmIntent, x).created == None
    ensures ValidPc(t, Commit(user, i), CommitStep(t, user, i, CmIntent, x).pc)
  {
    hide Consistent, SeenIntent, MarkAbandoned, CommitBatch;
    if i in t.intents { SettledAt(t, i); }
  }

  lemma CommitFileRead(t: Tables, user: UserId, i: IntentId, seen: Seen, x: Input)
    requires Consistent(t) && SeenIntent(t, seen) && seen.id == i
    ensures CommitStep(t, user, i, CmFile(seen), x).t == t && CommitStep(t, user, i, CmFile(seen), x).created == None
    ensures ValidPc(t, Commit(user, i), CommitStep(t, user, i, CmFile(seen), x).pc)
  {
    hide Consistent, SeenFile, InChainAbove, MarkAbandoned, CommitBatch, PairReal, SameIntent;
    RowSeen(t, seen.row.fileId);
  }

  lemma CommitStepKeeps(t: Tables, user: UserId, i: IntentId, pc: Pc, x: Input)
    requires Consistent(t) && ValidPc(t, Commit(user, i), pc)
    ensures StepOk(t, Commit(user, i), CommitStep(t, user, i, pc, x))
  {
    hide Consistent, StepOk, SeenIntent, SeenFile;
    if pc.CmAbandon? {
      CommitAbandoned(t, user, pc.seen, pc.file);
    } else if pc.CmBatch? {
      CommitBatchKeeps(t, user, i, pc.seen, pc.file, x);
    } else {
      CommitReads(t, user, i, pc, x);
      StayKeeps(t, Commit(user, i), CommitStep(t, user, i, pc, x));
    }
  }

  lemma CommitBatchKeeps(t: Tables, user: UserId, i: IntentId, seen: Seen, file: FileRow, x: Input)
    requires Consistent(t) && ValidPc(t, Commit(user, i), CmBatch(seen, file))
    ensures StepOk(t, Commit(user, i), CommitStep(t, user, i, CmBatch(seen, file), x))
  {
    hide Consistent, StepOk, SeenIntent, Wins, FreshVersionId, CommitBatch;
    var a := CommitAdvance(seen.row, file, x);
    if FreshVersionId(t.versions, a.versionId) && Wins(t, a) {
      CommitCreates(t, user, seen, a);
    } else {
      StayKeeps(t, Commit(user, i), CommitStep(t, user, i, CmBatch(seen, file), x));
    }
  }

  lemma CommitAnswered(t: Tables, user: UserId, seen: Seen)
    requires Consistent(t) && SeenIntent(t, seen) && Ended(seen.row.status)
    ensures var file := t.files[seen.row.fileId];
      file.currentHash.Some? && ReplyHolds(t, Commit(user, seen.id), CommitOk(seen.row.fileId, file.currentVersion, file.currentHash.value))
  {
    var f := seen.row.fileId;
    EndedMovedOn(t, f, seen.row.baseVersion, seen.row.hash);
    assert PairReal(t, f, t.files[f].currentVersion, t.files[f].currentHash);
  }

  lemma CommitAbandoned(t: Tables, user: UserId, seen: Seen, file: FileRow)
    requires Consistent(t) && ValidPc(t, Commit(user, seen.id), CmAbandon(seen, file))
    ensures StepOk(t, Commit(user, seen.id), Outcome(MarkAbandoned(t, seen.id), Done(CommitOk(seen.row.fileId, file.currentVersion, seen.row.hash)), None))
  {
    hide Dense, Linked, PointersReal, UniqueIds, RetentionShape, IntentsSettled, UniqueKeys, FilesGrow, VersionsGrow, IntentsGrow, FreshVersionId;
    var f := seen.row.fileId;
    assert t.versions[(f, file.currentVersion)].hash == seen.row.hash;
    assert InChainAbove(t, f, seen.row.baseVersion, seen.row.hash);
    MarkAbandonedKeeps(t, seen.id);
    var t' := MarkAbandoned(t, seen.id);
    StaysInChain(t, t', f, seen.row.baseVersion, seen.row.hash);
    SameVersionsSamePair(t, t', f, file.currentVersion, Some(seen.row.hash));
  }

  lemma SameVersionsSamePair(t: Tables, t': Tables, f: FileId, v: nat, h: Option<Hash>)
    requires t'.versions == t.versions && PairReal(t, f, v, h)
    ensures PairReal(t', f, v, h)
  {
  }

  lemma CommitCreates(t: Tables, user: UserId, seen: Seen, a: Advance)
    requires Consistent(t) && SeenIntent(t, seen)
    requires FreshVersionId(t.versions, a.versionId) && Wins(t, a) && a.expireThrough < a.base
    requires a.fileId == seen.row.fileId && a.base == seen.row.baseVersion && a.hash == seen.row.hash
    ensures StepOk(t, Commit(user, seen.id),
      Outcome(CommitBatch(t, a, seen.id, user, seen.row.logicalName), Done(CommitOk(a.fileId, a.base + 1, a.hash)),
              Some(Creation(a.fileId, a.base + 1, ByIntent(seen.id)))))
  {
    hide Dense, Linked, PointersReal, UniqueIds, RetentionShape, IntentsSettled, UniqueKeys, FilesGrow, VersionsGrow, IntentsGrow, FreshVersionId;
    CommitKeeps(t, a, seen.id, user, seen.row.logicalName);
    var t' := CommitBatch(t, a, seen.id, user, seen.row.logicalName);
    assert t'.versions.Keys == t.versions.Keys + {(a.fileId, a.base + 1)};
    assert t'.versions[(a.fileId, a.base + 1)].hash == a.hash;
    assert InChainAbove(t', a.fileId, a.base, a.hash);
  }

  lemma SourceAt(t: Tables, f: FileId, version: nat)
    requires Consistent(t)
    ensures (f, version) in t.versions ==> SourceRead(t, f, version, t.versions[(f, version)])
  {
  }

  lemma RestoreStepKeeps(t: Tables, req: Request, f: FileId, version: nat, base: nat, pc: Pc, x: Input)
    requires req.Restore? && req.fileId == f && req.version == version && req.base == base
    requires Consistent(t) && ValidPc(t, req, pc)
    ensures StepOk(t, req, RestoreStep(t, f, version, base, pc, x))
  {
    hide Consistent, StepOk, SeenFile, SourceRead, FreshVersionId, Wins, RestoreBatch;
    if f in t.files { RowSeen(t, f); }
    SourceAt(t, f, version);
    if pc.RsBatch? {
      var a := RestoreAdvance(f, version, pc.file, pc.source, x);
      if FreshVersionId(t.versions, a.versionId) && Wins(t, a) {
        RestoreCreates(t, req, a, pc.file, pc.source);
        return;
      }
    }
    StayKeeps(t, req, RestoreStep(t, f, version, base, pc, x));
  }

  lemma RestoreCreates(t: Tables, req: Request, a: Advance, file: FileRow, source: VersionRow)
    requires req.Restore? && Consistent(t) && SourceRead(t, req.fileId, req.version, source)
    requires FreshVersionId(t.versions, a.versionId) && Wins(t, a) && a.expireThrough < a.base
    requires a.fileId == req.fileId && a.base == req.base && a.hash == source.hash
    ensures StepOk(t, req, Outcome(RestoreBatch(t, a), Done(RestoreOk(a.fileId, a.base + 1, a.hash)), Some(Creation(a.fileId, a.base + 1, ByRestore))))
  {
    hide Dense, Linked, PointersReal, UniqueIds, RetentionShape, IntentsSettled, UniqueKeys, FilesGrow, VersionsGrow, IntentsGrow, FreshVersionId, SameIntent;
    RestoreKeeps(t, a);
    var t' := RestoreBatch(t, a);
    PairStaysReal(t, t', req.fileId, req.version, Some(a.hash));
    assert t'.versions.Keys == t.versions.Keys + {(a.fileId, a.base + 1)};
    assert t'.versions[(a.fileId, a.base + 1)].hash == a.hash;
  }

  lemma RewindStepKeeps(t: Tables, req: Request, f: FileId, version: nat, pc: Pc, x: Input)
    requires req == RewindVersion(f, version) && Consistent(t) && ValidPc(t, req, pc)
    ensures StepOk(t, req, RewindStep(t, f, version, pc, x))
  {
    hide Consistent, StepOk, SeenFile, SourceRead, FreshVersionId, RewindBatch;
    if f in t.files { RowSeen(t, f); }
    SourceAt(t, f, version);
    if pc.RwBatch? {
      var a := RestoreAdvance(f, version, pc.file, pc.source, x);
      if f in t.files && FreshVersionId(t.versions, a.versionId) && (f, a.base + 1) !in t.versions {
        RewindCreates(t, req, a, pc.file, pc.source);
        return;
      }
    }
    StayKeeps(t, req, RewindStep(t, f, version, pc, x));
  }

  lemma RewindCreates(t: Tables, req: Request, a: Advance, file: FileRow, source: VersionRow)
    requires req.RewindVersion? && Consistent(t) && SeenFile(t, a.fileId, file) && SourceRead(t, a.fileId, req.version, source)
    requires FreshVersionId(t.versions, a.versionId) && (a.fileId, a.base + 1) !in t.versions
    requires a.fileId == req.fileId && a.base == file.currentVersion && a.hash == source.hash
    ensures StepOk(t, req, Outcome(RewindBatch(t, a), Done(RewindOk(a.fileId, a.base + 1, a.hash)), Some(Creation(a.fileId, a.base + 1, ByRewind))))
  {
    hide Dense, Linked, PointersReal, UniqueIds, RetentionShape, IntentsSettled, UniqueKeys, FilesGrow, VersionsGrow, IntentsGrow, FreshVersionId, SameIntent;
    RewindKeeps(t, a);
    RewindBatchIsGuarded(t, a);
    var t' := RewindBatch(t, a);
    PairStaysReal(t, t', req.fileId, req.version, Some(a.hash));
    assert t.files[a.fileId].currentVersion == a.base;
    assert t'.versions.Keys == t.versions.Keys + {(a.fileId, a.base + 1)};
    assert t'.versions[(a.fileId, a.base + 1)].hash == a.hash;
  }

  lemma DownloadKeeps(t: Tables, f: FileId, pc: Pc, x: Input)
    requires Consistent(t) && ValidPc(t, Download(f), pc)
    ensures StepOk(t, Download(f), DownloadStep(t, f, pc, x))
  {
    hide Consistent, StepOk;
    if f in t.files { RowSeen(t, f); }
    StayKeeps(t, Download(f), DownloadStep(t, f, pc, x));
  }

  lemma StepKeeps(t: Tables, p: Proc, x: Input)
    requires Consistent(t) && ValidPc(t, p.req, p.pc)
    ensures StepOk(t, p.req, Step(t, p, x))
  {
    hide StepOk, Consistent, ValidPc;
    match p.req
    case Preflight(q) => PreflightKeeps(t, q, p.pc, x);
    case Upload(user, i, content) => UploadKeeps(t, p.req, user, i, content, p.pc, x);
    case Receipt(user, i, content) => UploadKeeps(t, p.req, user, i, content, p.pc, x);
    case Commit(user, i) => CommitStepKeeps(t, user, i, p.pc, x);
    case Restore(_, f, version, base) => RestoreStepKeeps(t, p.req, f, version, base, p.pc, x);
    case RewindVersion(f, version) => RewindStepKeeps(t, p.req, f, version, p.pc, x);
    case Download(f) => DownloadKeeps(t, f, p.pc, x);
  }
}
