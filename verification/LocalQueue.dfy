/** The client's SQLite tables `files` and `pending_sync`: what each LocalDb method does to them.

    Every LocalDb method runs to completion before the next, so each is one function on the two
    tables. */
module LocalQueue {
  import opened Wrappers
  import opened CloudTables

  type RowId = nat

  datatype Operation = Upsert | Rename
  datatype SyncStatus = Synced | Pending | Uploading | RetryWait | InConflict | InError
  datatype SentReceipt = SentReceipt(messageId: nat, hash: Hash)

  datatype LocalFile = LocalFile(
    version: nat,
    hash: Option<Hash>,
    status: SyncStatus,
    cloudStatus: FileStatus)

  // `hash` stands for the columns hash and size, which are set together.
  datatype Row = Row(
    fileId: FileId,
    operation: Operation,
    hash: Option<Hash>,
    base: nat,
    key: Key,
    status: SyncStatus,
    attempts: nat,
    priority: nat,
    retryAt: Option<nat>,
    created: nat,
    receipt: Option<SentReceipt>,
    backend: Backend,
    restoredFrom: Option<nat>)

  datatype Local = Local(files: map<FileId, LocalFile>, rows: map<RowId, Row>)

  predicate Live(status: SyncStatus) {
    status in {Pending, Uploading, RetryWait}
  }

  function Clamp(priority: int): nat {
    if priority < 0 then 0 else if priority > 4 then 4 else priority
  }

  function WithFileStatus(l: Local, f: FileId, status: SyncStatus): Local {
    if f in l.files then l.(files := l.files[f := l.files[f].(status := status)]) else l
  }

  function WithRow(l: Local, r: RowId, row: Row): Local {
    l.(rows := l.rows[r := row])
  }

  // ---------------------------------------------------------------- queueing

  predicate HasActiveForHash(rows: map<RowId, Row>, f: FileId, hash: Hash) {
    exists r | r in rows.Keys :: rows[r].fileId == f && rows[r].operation == Upsert && rows[r].hash == Some(hash) && Live(rows[r].status)
  }

  predicate IsWaiting(row: Row, f: FileId) {
    row.fileId == f && row.operation == Upsert && row.status == RetryWait && row.hash == None
  }

  /** The row `ORDER BY created_at ASC LIMIT 1` may return among those waiting for their content. */
  predicate PicksWaiting(rows: map<RowId, Row>, f: FileId, pick: Option<RowId>) {
    match pick
    case None => forall r | r in rows.Keys :: !IsWaiting(rows[r], f)
    case Some(w) =>
      && w in rows && IsWaiting(rows[w], f)
      && forall r | r in rows.Keys && IsWaiting(rows[r], f) :: rows[w].created <= rows[r].created
  }

  function UpsertKey(f: FileId, base: nat, hash: Hash, restoredFrom: Option<nat>): Key {
    Key(f, base, Some(hash), if restoredFrom.Some? then ForRestore(restoredFrom.value) else Plain)
  }

  predicate KeyTaken(rows: map<RowId, Row>, key: Key) {
    exists r | r in rows.Keys :: rows[r].key == key
  }

  /** What the caller of queueUpsert passes on; `file` is the row it last read, maybe stale. */
  datatype UpsertArgs = UpsertArgs(f: FileId, file: LocalFile, hash: Hash, priority: int, backend: Backend, restoredFrom: Option<nat>)

  predicate UpsertSkipped(l: Local, a: UpsertArgs) {
    || a.file.cloudStatus != Active
    || (a.restoredFrom.None? && a.file.hash == Some(a.hash))
    || HasActiveForHash(l.rows, a.f, a.hash)
  }

  function NewUpsert(a: UpsertArgs, now: nat): Row {
    Row(a.f, Upsert, Some(a.hash), a.file.version, UpsertKey(a.f, a.file.version, a.hash, a.restoredFrom),
        Pending, 0, Clamp(a.priority), None, now, None, a.backend, a.restoredFrom)
  }

  /** queueUpsert: nothing to do, or the waiting row gets its content, or a new row. `id` is fresh. */
  function QueueUpsert(l: Local, a: UpsertArgs, waiting: Option<RowId>, id: RowId, now: nat): Local {
    if UpsertSkipped(l, a) then l
    else if waiting.Some? && waiting.value in l.rows then
      var row := l.rows[waiting.value].(hash := Some(a.hash), base := a.file.version, backend := a.backend,
        restoredFrom := a.restoredFrom, status := Pending, priority := Clamp(a.priority), retryAt := None);
      WithFileStatus(WithRow(l, waiting.value, row), a.f, Pending)
    else if KeyTaken(l.rows, UpsertKey(a.f, a.file.version, a.hash, a.restoredFrom)) then l
    else WithFileStatus(WithRow(l, id, NewUpsert(a, now)), a.f, Pending)
  }

  predicate IsLiveUpsert(row: Row, f: FileId) {
    row.fileId == f && row.operation == Upsert && Live(row.status)
  }

  /** The row `ORDER BY created_at DESC LIMIT 1` may return among the file's live ones. */
  predicate PicksLive(rows: map<RowId, Row>, f: FileId, pick: Option<RowId>) {
    match pick
    case None => forall r | r in rows.Keys :: !IsLiveUpsert(rows[r], f)
    case Some(p) =>
      && p in rows && IsLiveUpsert(rows[p], f)
      && forall r | r in rows.Keys && IsLiveUpsert(rows[r], f) :: rows[r].created <= rows[p].created
  }

  /** queueWaitingUpsert: the file is still held by another program, so the row has no content yet. */
  function QueueWaiting(l: Local, f: FileId, file: LocalFile, path: string, existing: Option<RowId>, id: RowId, backend: Backend, retryAt: nat, now: nat): Local {
    if file.cloudStatus != Active then l
    else if existing.Some? && existing.value in l.rows then
      var row := l.rows[existing.value];
      if row.status == Uploading then l
      else WithFileStatus(WithRow(l, existing.value, row.(status := RetryWait, priority := if row.priority < 2 then row.priority else 2, retryAt := Some(retryAt))), f, RetryWait)
    else
      var key := Key(f, file.version, None, WaitingAt(path));
      if KeyTaken(l.rows, key) then l
      else WithFileStatus(WithRow(l, id, Row(f, Upsert, None, file.version, key, RetryWait, 0, 2, Some(retryAt), now, None, backend, None)), f, RetryWait)
  }

  function PreparePendingUpload(l: Local, r: RowId, hash: Hash): Local {
    if r in l.rows && l.rows[r].operation == Upsert
    then WithRow(l, r, l.rows[r].(hash := Some(hash), status := Uploading, retryAt := None)) else l
  }

  // ---------------------------------------------------------------- progress of one row

  function MarkUploading(l: Local, r: RowId): Local {
    if r in l.rows
    then WithFileStatus(WithRow(l, r, l.rows[r].(status := Uploading, attempts := l.rows[r].attempts + 1)), l.rows[r].fileId, Uploading)
    else l
  }

  /** markRetry, markError and markConflict: the row and its file take the same status. */
  function MarkRow(l: Local, r: RowId, status: SyncStatus, retryAt: Option<nat>): Local {
    if r in l.rows
    then WithFileStatus(WithRow(l, r, l.rows[r].(status := status, retryAt := if retryAt.Some? then retryAt else l.rows[r].retryAt)), l.rows[r].fileId, status)
    else l
  }

  function SetUploadReceipt(l: Local, r: RowId, receipt: SentReceipt): Local {
    if r in l.rows then WithRow(l, r, l.rows[r].(receipt := Some(receipt), backend := UserGroup)) else l
  }

  /** markSynced: the cloud's answer becomes the file's cached pair and the row is retired. */
  function MarkSynced(l: Local, r: RowId, version: nat, hash: Option<Hash>): Local {
    if r !in l.rows then l else
      var f := l.rows[r].fileId;
      Local(if f in l.files then l.files[f := l.files[f].(version := version, hash := hash, status := Synced)] else l.files, l.rows - {r})
  }

  function MarkPendingNoChange(l: Local, r: RowId): Local {
    if r !in l.rows then l else WithFileStatus(l, l.rows[r].fileId, Synced).(rows := l.rows - {r})
  }

  /** rebaseQueuedForFile after a row of the file went through: the others build on the new version. */
  function Rebased(rows: map<RowId, Row>, f: FileId, base: nat): map<RowId, Row> {
    map r | r in rows :: if rows[r].fileId == f && rows[r].status in {Pending, RetryWait} then RebasedRow(r, rows[r], base) else rows[r]
  }

  function RebasedRow(r: RowId, row: Row, base: nat): Row {
    row.(base := base, key := Key(row.fileId, base, row.hash, if row.hash.Some? then Plain else WaitingRow(r)))
  }

  predicate UniqueKeysIn(rows: map<RowId, Row>) {
    forall r, s | r in rows.Keys && s in rows.Keys && r != s :: rows[r].key != rows[s].key
  }

  // ---------------------------------------------------------------- rows and files as a whole

  function CancelPending(l: Local, f: FileId): Local {
    l.(rows := map r | r in l.rows && l.rows[r].fileId != f :: l.rows[r])
  }

  function CancelPendingById(l: Local, r: RowId): Local {
    if r !in l.rows || l.rows[r].status == Uploading then l
    else
      var f := l.rows[r].fileId;
      WithFileStatus(l, f, if f in l.files && l.files[f].version > 0 then Synced else InError).(rows := l.rows - {r})
  }

  function RequeuePending(l: Local, r: RowId): Local {
    if r !in l.rows || l.rows[r].status == Uploading then l
    else WithFileStatus(WithRow(l, r, l.rows[r].(status := Pending, priority := 2, retryAt := None)), l.rows[r].fileId, Pending)
  }

  function SetBackendForFile(l: Local, f: FileId, backend: Backend): Local {
    l.(rows := map r | r in l.rows :: if l.rows[r].fileId == f && l.rows[r].operation == Upsert
      && l.rows[r].status in {Pending, RetryWait} && l.rows[r].receipt == None then l.rows[r].(backend := backend) else l.rows[r])
  }

  function RecoverInterruptedJobs(l: Local): Local {
    l.(rows := map r | r in l.rows :: if l.rows[r].status == Uploading then l.rows[r].(status := Pending, retryAt := None) else l.rows[r])
  }

  function UpdateCloudState(l: Local, f: FileId, version: nat, hash: Option<Hash>, status: SyncStatus): Local {
    if f in l.files then l.(files := l.files[f := LocalFile(version, hash, status, Active)]) else l
  }

  /** upsertRemoteFile and upsertRemoteMetadata: adopt the cloud's pair, creating the file if unknown. */
  function UpsertRemote(l: Local, f: FileId, version: nat, hash: Option<Hash>, cloudStatus: FileStatus): Local {
    l.(files := l.files[f := LocalFile(version, hash, Synced, cloudStatus)])
  }

  function EnsureFile(l: Local, f: FileId): Local {
    if f in l.files then l else l.(files := l.files[f := LocalFile(0, None, Pending, Active)])
  }

  /** markMissing: a local deletion drops the queued work of a synced file, not its cloud copy. */
  function MarkMissing(l: Local, f: FileId): Local {
    if f in l.files && l.files[f].version > 0 then WithFileStatus(CancelPending(l, f), f, Synced) else l
  }

  /** removeUnsyncedFile: what never reached the cloud is forgotten with its queued work. */
  function RemoveUnsynced(l: Local, f: FileId): Local {
    var files := if f in l.files && l.files[f].version == 0 then l.files - {f} else l.files;
    CancelPending(l, f).(files := files)
  }

  function MarkCloudStatus(l: Local, f: FileId, cloudStatus: FileStatus): Local {
    if f in l.files then CancelPending(l, f).(files := l.files[f := l.files[f].(status := Synced, cloudStatus := cloudStatus)])
    else CancelPending(l, f)
  }

  // ---------------------------------------------------------------- choosing the next row

  predicate Ready(row: Row, now: nat) {
    row.status == Pending || (row.status == RetryWait && (row.retryAt.None? || row.retryAt.value <= now))
  }

  predicate Eligible(rows: map<RowId, Row>, excluded: set<FileId>, now: nat, r: RowId) {
    r in rows && Ready(rows[r], now) && rows[r].fileId !in excluded
  }

  /** ORDER BY created_at, or by priority and then created_at. */
  predicate NotAfter(a: Row, b: Row, preferOldest: bool) {
    if preferOldest then a.created <= b.created
    else a.priority < b.priority || (a.priority == b.priority && a.created <= b.created)
  }

  /** `pick` is a first row of the query, or there is no row to return. */
  predicate PicksNext(rows: map<RowId, Row>, excluded: set<FileId>, preferOldest: bool, now: nat, pick: Option<RowId>) {
    match pick
    case None => forall r | r in rows.Keys :: !Eligible(rows, excluded, now, r)
    case Some(p) =>
      && Eligible(rows, excluded, now, p)
      && forall r | r in rows.Keys && Eligible(rows, excluded, now, r) :: NotAfter(rows[p], rows[r], preferOldest)
  }

  // ---------------------------------------------------------------- keys and content

  /** Only an upsert has content, and a plain key names its row's content. */
  predicate RowTells(row: Row) {
    && (row.hash.Some? ==> row.operation == Upsert)
    && (row.key.tag.Plain? ==> row.hash.Some? && row.hash == row.key.hash && row.fileId == row.key.fileId)
  }

  predicate KeysTell(rows: map<RowId, Row>) {
    forall r | r in rows.Keys :: RowTells(rows[r])
  }

  /** Every way content comes into the queue keeps that; a row is prepared only while it has none. */
  lemma QueueingKeepsTelling(l: Local, a: UpsertArgs, waiting: Option<RowId>, id: RowId, now: nat)
    requires KeysTell(l.rows) && PicksWaiting(l.rows, a.f, waiting)
    ensures KeysTell(QueueUpsert(l, a, waiting, id, now).rows)
  {
    hide UpsertSkipped, KeyTaken;
  }

  lemma WaitingKeepsTelling(l: Local, f: FileId, file: LocalFile, path: string, existing: Option<RowId>, id: RowId, backend: Backend, retryAt: nat, now: nat)
    requires KeysTell(l.rows)
    ensures KeysTell(QueueWaiting(l, f, file, path, existing, id, backend, retryAt, now).rows)
  {
    hide KeyTaken;
  }

  lemma PreparingKeepsTelling(l: Local, r: RowId, hash: Hash)
    requires KeysTell(l.rows) && (r in l.rows ==> l.rows[r].hash.None?)
    ensures KeysTell(PreparePendingUpload(l, r, hash).rows)
  {
  }

  /** So does everything that happens to a row later. */
  lemma ProgressKeepsTelling(l: Local, r: RowId, status: SyncStatus, retryAt: Option<nat>, receipt: SentReceipt, version: nat, hash: Option<Hash>)
    requires KeysTell(l.rows)
    ensures KeysTell(MarkUploading(l, r).rows) && KeysTell(MarkRow(l, r, status, retryAt).rows)
    ensures KeysTell(SetUploadReceipt(l, r, receipt).rows) && KeysTell(MarkSynced(l, r, version, hash).rows)
    ensures KeysTell(MarkPendingNoChange(l, r).rows) && KeysTell(CancelPendingById(l, r).rows) && KeysTell(RequeuePending(l, r).rows)
  {
  }

  lemma RebaseKeepsTelling(rows: map<RowId, Row>, f: FileId, base: nat)
    requires KeysTell(rows)
    ensures KeysTell(Rebased(rows, f, base))
  {
  }

  lemma FilesKeepTelling(l: Local, f: FileId, backend: Backend, version: nat, hash: Option<Hash>, status: SyncStatus, cloudStatus: FileStatus)
    requires KeysTell(l.rows)
    ensures KeysTell(CancelPending(l, f).rows) && KeysTell(SetBackendForFile(l, f, backend).rows) && KeysTell(RecoverInterruptedJobs(l).rows)
    ensures KeysTell(UpdateCloudState(l, f, version, hash, status).rows) && KeysTell(UpsertRemote(l, f, version, hash, cloudStatus).rows)
    ensures KeysTell(EnsureFile(l, f).rows) && KeysTell(MarkMissing(l, f).rows) && KeysTell(MarkCloudStatus(l, f, cloudStatus).rows)
    ensures KeysTell(RemoveUnsynced(l, f).rows)
  {
  }
}
