/** One client's sync engine against the worker.

    The client's jobs advance one await at a time; between any two of their steps the worker may run
    any statement of any request, of this client or another, the user may edit and cancel, and the
    client may crash or lose a reply. */
module SyncClient {
  import opened Wrappers
  import opened CloudTables
  import opened CloudHandlers
  import opened CloudHistory
  import opened LocalQueue

  /** Where one run of processUpsert stands; `row` is the queue row as the job holds it in memory. */
  datatype Job =
    | Started(row: Row)
    | Hashing(row: Row, cached: Option<Hash>)
    | Asking(row: Row)
    | AwaitPreflight(row: Row, pid: Pid)
    | Storing(row: Row, intent: IntentId)
    | Sent(row: Row, intent: IntentId, receipt: SentReceipt)
    | Reporting(row: Row, intent: IntentId)
    | AwaitStored(row: Row, intent: IntentId, pid: Pid)
    | Committing(row: Row, intent: IntentId)
    | AwaitCommit(row: Row, intent: IntentId, pid: Pid)
    | Conflicting(row: Row)
    | AwaitCopy(row: Row, pid: Pid)

  /** `sent` lists the rows whose content was sent to the Telegram group, `uploads` those for which the
      worker was asked to take it, `retired` the content that
      the queue gave up as synced, `used` every row id ever drawn, `held` the file rows that
      restore() keeps in memory while it downloads. */
  datatype System = System(
    cloud: World,
    user: UserId,
    l: Local,
    jobs: map<RowId, Job>,
    sent: seq<RowId>,
    uploads: seq<RowId>,
    retired: seq<(FileId, Hash)>,
    used: set<RowId>,
    held: map<nat, (FileId, LocalFile)>)

  /** What happens around a job step: the bytes found, lost replies, fresh ids, whether storage
      works, whether a refusal is retryable or is the 409 of a lease, and when a retry is due. */
  datatype Around = Around(content: Option<Hash>, verified: bool, lost: bool, pid: Pid, message: nat,
                           workspace: nat, logicalName: string, path: string, works: bool, retryable: bool, locked: bool, rebase: bool, retryAt: nat)

  datatype Act =
    | CloudMoves(e: Event)
    | Track(f: FileId)
    | Hold(k: nat, f: FileId)
    | Edit(a: UpsertArgs, waiting: Option<RowId>, id: RowId, now: nat, imported: Option<SentReceipt>)
    | Wait(f: FileId, path: string, existing: Option<RowId>, id: RowId, backend: Backend, retryAt: nat, now: nat)
    | Dispatch(r: RowId, now: nat)
    | Work(r: RowId, x: Around)
    | Pull(pid: Pid, status: SyncStatus)
    | CancelFile(f: FileId)
    | CancelRow(r: RowId)
    | Requeue(r: RowId)
    | ChooseBackend(f: FileId, backend: Backend)
    | Vanish(f: FileId)
    | Forget(f: FileId)
    | AdoptEmpty(f: FileId, cloudStatus: FileStatus)
    | CloudStatus(f: FileId, cloudStatus: FileStatus)
    | Crash

  ghost function Begin(user: UserId): System {
    System(Start, user, Local(map[], map[]), map[], [], [], [], {}, map[])
  }

  // ---------------------------------------------------------------- one step of a job

  function EndJob(s: System, r: RowId): System {
    s.(jobs := s.jobs - {r})
  }

  function WithJob(s: System, r: RowId, job: Job): System {
    s.(jobs := s.jobs[r := job])
  }

  /** The codes the worker answers with status 409. */
  predicate IsConflict(code: ErrorCode) {
    match code
    case Refused | FileNotFound | IntentNotFound | PersistFailed | VersionNotAvailable => false
    case _ => true
  }

  /** handleProcessingError: 409 makes a conflict, other client errors are final, the rest is retried. */
  function OnError(s: System, r: RowId, row: Row, code: ErrorCode, x: Around): System {
    if IsConflict(code) || (code.Refused? && x.locked) then WithJob(s, r, Conflicting(row))
    else if code == PersistFailed || x.retryable then Retry(s, r, x)
    else EndJob(s.(l := MarkRow(s.l, r, InError, None)), r)
  }

  function Retry(s: System, r: RowId, x: Around): System {
    EndJob(s.(l := MarkRow(s.l, r, RetryWait, Some(x.retryAt))), r)
  }

  /** Sends one request; `x.pid` is a fresh process of the worker. */
  ghost function Call(s: System, r: RowId, req: Request, job: Job, x: Around): System {
    if x.lost || x.pid in s.cloud.procs then Retry(s, r, x)
    else WithJob(s.(cloud := Next(s.cloud, Arrive(x.pid, req))), r, job)
  }

  /** markSynced with the cloud's answer, then rebaseQueuedForFile. */
  function Retire(s: System, r: RowId, f: FileId, version: nat, hash: Option<Hash>, x: Around): System {
    var l := MarkSynced(s.l, r, version, hash);
    var rebased := Rebased(l.rows, f, version);
    EndJob(s.(l := if x.rebase && UniqueKeysIn(rebased) then l.(rows := rebased) else l,
              retired := if r in s.l.rows && s.l.rows[r].hash.Some? then s.retired + [(f, s.l.rows[r].hash.value)] else s.retired), r)
  }

  function PreflightOf(s: System, row: Row, x: Around): Request
    requires row.hash.Some?
  {
    Preflight(PreflightInput(s.user, Some(row.fileId), None, x.workspace, x.logicalName, x.path, row.hash.value, row.base, row.key,
                             row.backend, row.restoredFrom))
  }

  function HashedStep(s: System, r: RowId, row: Row, cached: Option<Hash>, x: Around): System {
    if x.content.None? then EndJob(s.(l := MarkRow(s.l, r, InError, None)), r)
    else
      var h := x.content.value;
      if row.hash.None? && cached == Some(h) then
        EndJob(s.(l := MarkPendingNoChange(s.l, r), retired := if r in s.l.rows then s.retired + [(row.fileId, h)] else s.retired), r)
      else if row.hash.None? then
        if r !in s.l.rows || s.l.rows[r].operation != Upsert then Retry(s, r, x)
        else
          var l := PreparePendingUpload(s.l, r, h);
          WithJob(s.(l := l), r, Asking(l.rows[r]))
      else if row.hash != Some(h) then EndJob(s.(l := CancelPending(s.l, row.fileId)), r)
      else WithJob(s, r, Asking(row))
  }

  function PreflightAnswered(s: System, r: RowId, row: Row, reply: Reply, x: Around): System {
    match reply
    case Noop(f, v, h) =>
      if !x.verified then EndJob(s.(l := CancelPending(s.l, row.fileId)), r) else Retire(s, r, row.fileId, v, Some(h), x)
    case AlreadyCommitted(f, _, v, h) =>
      if !x.verified then EndJob(s.(l := CancelPending(s.l, row.fileId)), r) else Retire(s, r, row.fileId, v, h, x)
    case Conflict(_, _, _) => WithJob(s, r, Conflicting(row))
    case UploadRequired(_, i) => WithJob(s, r, Storing(row, i))
    case CommitRequired(_, i) => WithJob(s, r, Committing(row, i))
    case Failed(code) => OnError(s, r, row, code, x)
    case _ => Retry(s, r, x)
  }

  ghost function StoreStep(s: System, r: RowId, row: Row, i: IntentId, x: Around): System
    requires row.hash.Some?
  {
    if row.receipt.Some? then WithJob(s, r, Reporting(row, i))
    else if row.backend == Bot then
      if x.content.None? then EndJob(s.(l := MarkRow(s.l, r, InError, None)), r)
      else Call(s.(uploads := s.uploads + [r]), r, Upload(s.user, i, x.content.value), AwaitStored(row, i, x.pid), x)
    else if !x.works then Retry(s, r, x)
    else WithJob(s.(sent := s.sent + [r]), r, Sent(row, i, SentReceipt(x.message, row.hash.value)))
  }

  /** Past the hashing a job always knows its content's hash. */
  predicate CanStep(s: System, r: RowId) {
    r in s.jobs && (s.jobs[r].row.hash.None? ==> s.jobs[r].Started? || s.jobs[r].Hashing?)
  }

  ghost function JobStep(s: System, r: RowId, x: Around): System
    requires CanStep(s, r)
  {
    match s.jobs[r]
    case Started(row) =>
      if row.fileId !in s.l.files then Retry(s, r, x) else WithJob(s, r, Hashing(row, s.l.files[row.fileId].hash))
    case Hashing(row, cached) => HashedStep(s, r, row, cached, x)
    case Asking(row) => Call(s, r, PreflightOf(s, row, x), AwaitPreflight(row, x.pid), x)
    case AwaitPreflight(row, pid) =>
      if x.lost then Retry(s, r, x)
      else if pid in s.cloud.procs && s.cloud.procs[pid].pc.Done? then PreflightAnswered(s, r, row, s.cloud.procs[pid].pc.reply, x)
      else s
    case Storing(row, i) => StoreStep(s, r, row, i, x)
    case Sent(row, i, receipt) =>
      var row' := row.(receipt := Some(receipt), backend := UserGroup);
      WithJob(s.(l := SetUploadReceipt(s.l, r, receipt)), r, Reporting(row', i))
    case Reporting(row, i) =>
      if row.receipt.None? then Retry(s, r, x)
      else Call(s, r, Receipt(s.user, i, row.receipt.value.hash), AwaitStored(row, i, x.pid), x)
    case AwaitStored(row, i, pid) =>
      if x.lost then Retry(s, r, x)
      else if pid !in s.cloud.procs || !s.cloud.procs[pid].pc.Done? then s
      else if s.cloud.procs[pid].pc.reply.Failed? then OnError(s, r, row, s.cloud.procs[pid].pc.reply.code, x)
      else WithJob(s, r, Committing(row, i))
    case Committing(row, i) => Call(s, r, Commit(s.user, i), AwaitCommit(row, i, x.pid), x)
    case AwaitCommit(row, i, pid) =>
      if x.lost then Retry(s, r, x)
      else if pid !in s.cloud.procs || !s.cloud.procs[pid].pc.Done? then s
      else
        var reply := s.cloud.procs[pid].pc.reply;
        if reply.Failed? then OnError(s, r, row, reply.code, x)
        else if reply.CommitOk? then Retire(s, r, row.fileId, reply.version, Some(reply.hash), x)
        else Retry(s, r, x)
    case Conflicting(row) =>
      if x.content.None? then EndJob(s, r)  // the local file is gone, copyFile throws and the row stays as it is
      else if x.lost || x.pid in s.cloud.procs then EndJob(s.(l := MarkRow(s.l, r, InConflict, None)), r)
      else WithJob(s.(cloud := Next(s.cloud, Arrive(x.pid, Download(row.fileId)))), r, AwaitCopy(row, x.pid))
    case AwaitCopy(row, pid) =>
      var l := if !x.lost && pid in s.cloud.procs && s.cloud.procs[pid].pc.Done? && s.cloud.procs[pid].pc.reply.Content?
        then UpdateCloudState(s.l, row.fileId, s.cloud.procs[pid].pc.reply.version, s.cloud.procs[pid].pc.reply.current, Synced) else s.l;
      EndJob(s.(l := MarkRow(l, r, InConflict, None)), r)
  }

  // ---------------------------------------------------------------- one step of the system

  ghost predicate FileAtHand(s: System, f: FileId, file: LocalFile) {
    (f in s.l.files && file == s.l.files[f]) || (exists k | k in s.held :: s.held[k] == (f, file))
  }

  ghost function Do(s: System, act: Act): System {
    match act
    case CloudMoves(e) => s.(cloud := Next(s.cloud, e))
    case Track(f) => s.(l := EnsureFile(s.l, f))
    case Hold(k, f) => if f in s.l.files then s.(held := s.held[k := (f, s.l.files[f])]) else s
    case Edit(a, waiting, id, now, imported) =>
      if !FileAtHand(s, a.f, a.file) || id in s.used || !PicksWaiting(s.l.rows, a.f, waiting) then s
      else
        var l := QueueUpsert(s.l, a, waiting, id, now);
        var queued := if waiting.Some? then waiting.value else id;
        // importing a Telegram message queues the row together with that message's receipt
        s.(l := if imported.Some? && l != s.l then SetUploadReceipt(l, queued, SentReceipt(imported.value.messageId, a.hash)) else l,
           used := s.used + {id})
    case Wait(f, path, existing, id, backend, retryAt, now) =>
      if f !in s.l.files || id in s.used || !PicksLive(s.l.rows, f, existing) then s
      else s.(l := QueueWaiting(s.l, f, s.l.files[f], path, existing, id, backend, retryAt, now), used := s.used + {id})
    case Dispatch(r, now) =>
      if r !in s.l.rows || r in s.jobs || s.l.rows[r].operation != Upsert || !Ready(s.l.rows[r], now) then s
      else WithJob(s.(l := MarkUploading(s.l, r)), r, Started(s.l.rows[r]))
    case Work(r, x) =>
      if CanStep(s, r) then JobStep(s, r, x) else s
    case Pull(pid, status) =>
      if pid !in s.cloud.procs || !s.cloud.procs[pid].pc.Done? || !s.cloud.procs[pid].pc.reply.Content? then s
      else
        var reply := s.cloud.procs[pid].pc.reply;
        s.(l := WithFileStatus(UpsertRemote(s.l, reply.fileId, reply.version, reply.current, Active), reply.fileId, status))
    case CancelFile(f) => s.(l := CancelPending(s.l, f))
    case CancelRow(r) => s.(l := CancelPendingById(s.l, r))
    case Requeue(r) => s.(l := RequeuePending(s.l, r))
    case ChooseBackend(f, backend) => s.(l := SetBackendForFile(s.l, f, backend))
    case Vanish(f) => s.(l := MarkMissing(s.l, f))
    case Forget(f) => s.(l := RemoveUnsynced(s.l, f))
    case AdoptEmpty(f, cloudStatus) => s.(l := UpsertRemote(s.l, f, 0, None, cloudStatus))
    case CloudStatus(f, cloudStatus) => s.(l := MarkCloudStatus(s.l, f, cloudStatus))
    case Crash => s.(l := RecoverInterruptedJobs(s.l), jobs := map[], held := map[])
  }

  ghost function Play(s: System, acts: seq<Act>): System {
    if acts == [] then s else Do(Play(s, acts[..|acts| - 1]), acts[|acts| - 1])
  }

  // ---------------------------------------------------------------- the invariant

  function CurrentVersion(t: Tables, f: FileId): nat {
    if f in t.files then t.files[f].currentVersion else 0
  }

  ghost predicate InChain(t: Tables, f: FileId, hash: Hash) {
    exists v: nat :: (f, v) in t.versions && t.versions[(f, v)].hash == hash
  }

  ghost predicate FilesReal(t: Tables, files: map<FileId, LocalFile>) {
    forall f | f in files :: PairReal(t, f, files[f].version, files[f].hash)
  }

  ghost predicate HeldReal(t: Tables, held: map<nat, (FileId, LocalFile)>) {
    forall k | k in held :: PairReal(t, held[k].0, held[k].1.version, held[k].1.hash)
  }

  ghost predicate BasesReached(t: Tables, rows: map<RowId, Row>) {
    forall r | r in rows :: rows[r].base <= CurrentVersion(t, rows[r].fileId)
  }

  ghost predicate RetiredInChain(t: Tables, retired: seq<(FileId, Hash)>) {
    forall j | 0 <= j < |retired| :: InChain(t, retired[j].0, retired[j].1)
  }

  ghost predicate IntentFor(t: Tables, i: IntentId, row: Row) {
    i in t.intents && t.intents[i].fileId == row.fileId && row.hash == Some(t.intents[i].hash)
  }

  /** What a job holds in memory matches its row, if the row is still there, and the cloud. */
  ghost predicate JobKnows(cloud: World, user: UserId, job: Job) {
    && (!job.Started? && !job.Hashing? ==> job.row.hash.Some?)
    && match job
       case Hashing(row, cached) => cached.Some? ==> InChain(cloud.t, row.fileId, cached.value)
       case AwaitPreflight(row, pid) => pid in cloud.procs && cloud.procs[pid].req.Preflight?
         && cloud.procs[pid].req.q.fileId == Some(row.fileId) && Some(cloud.procs[pid].req.q.hash) == row.hash
       case Storing(row, i) => IntentFor(cloud.t, i, row)
       case Sent(row, i, _) => IntentFor(cloud.t, i, row) && row.receipt.None?
       case Reporting(row, i) => IntentFor(cloud.t, i, row)
       case AwaitStored(row, i, _) => IntentFor(cloud.t, i, row)
       case Committing(row, i) => IntentFor(cloud.t, i, row)
       case AwaitCommit(row, i, pid) => IntentFor(cloud.t, i, row) && pid in cloud.procs && cloud.procs[pid].req == Commit(user, i)
       case AwaitCopy(row, pid) => pid in cloud.procs && cloud.procs[pid].req == Download(row.fileId)
       case _ => true
  }

  predicate JobMatches(rows: map<RowId, Row>, r: RowId, job: Job) {
    r in rows ==>
      && rows[r].fileId == job.row.fileId && rows[r].operation == Upsert && rows[r].status == Uploading
      && rows[r].hash == job.row.hash && rows[r].receipt == job.row.receipt
  }

  ghost predicate JobsKnow(cloud: World, user: UserId, jobs: map<RowId, Job>) {
    forall r | r in jobs :: JobKnows(cloud, user, jobs[r])
  }

  ghost predicate JobsMatch(rows: map<RowId, Row>, jobs: map<RowId, Job>) {
    forall r | r in jobs :: JobMatches(rows, r, jobs[r])
  }

  predicate IdsUsed(rows: map<RowId, Row>, jobs: map<RowId, Job>, used: set<RowId>) {
    rows.Keys <= used && jobs.Keys <= used
  }

  ghost predicate CloudSide(s: System) {
    && Inv(s.cloud)
    && FilesReal(s.cloud.t, s.l.files) && HeldReal(s.cloud.t, s.held)
    && BasesReached(s.cloud.t, s.l.rows)
    && RetiredInChain(s.cloud.t, s.retired)
    && JobsKnow(s.cloud, s.user, s.jobs)
  }

  ghost predicate Good(s: System) {
    CloudSide(s) && JobsMatch(s.l.rows, s.jobs) && IdsUsed(s.l.rows, s.jobs, s.used)
  }

  // ---------------------------------------------------------------- the cloud moves

  ghost predicate Persist(procs: map<Pid, Proc>, procs': map<Pid, Proc>) {
    forall pid | pid in procs :: pid in procs' && procs'[pid].req == procs[pid].req
  }

  lemma ProcsPersist(w: World, e: Event)
    ensures Persist(w.procs, Next(w, e).procs)
  {
    hide Step;
  }

  lemma ChainStays(t: Tables, t': Tables, f: FileId, hash: Hash)
    requires Grows(t, t') && InChain(t, f, hash)
    ensures InChain(t', f, hash)
  {
    var v: nat :| (f, v) in t.versions && t.versions[(f, v)].hash == hash;
    assert t'.versions[(f, v)].hash == hash;
  }

  lemma IntentForStays(t: Tables, t': Tables, i: IntentId, row: Row)
    requires Grows(t, t') && IntentFor(t, i, row)
    ensures IntentFor(t', i, row)
  {
  }

  lemma JobKnowsStays(w: World, w': World, user: UserId, job: Job)
    requires Grows(w.t, w'.t) && Persist(w.procs, w'.procs) && JobKnows(w, user, job)
    ensures JobKnows(w', user, job)
  {
    hide Grows, InChain, IntentFor;
    match job
    case Hashing(row, cached) => if cached.Some? { ChainStays(w.t, w'.t, row.fileId, cached.value); }
    case Storing(row, i) => IntentForStays(w.t, w'.t, i, row);
    case Sent(row, i, _) => IntentForStays(w.t, w'.t, i, row);
    case Reporting(row, i) => IntentForStays(w.t, w'.t, i, row);
    case AwaitStored(row, i, _) => IntentForStays(w.t, w'.t, i, row);
    case Committing(row, i) => IntentForStays(w.t, w'.t, i, row);
    case AwaitCommit(row, i, _) => IntentForStays(w.t, w'.t, i, row);
    case _ =>
  }

  lemma VersionReached(t: Tables, t': Tables, f: FileId)
    requires Grows(t, t')
    ensures CurrentVersion(t, f) <= CurrentVersion(t', f)
  {
  }

  lemma RealStays(t: Tables, t': Tables, s: System)
    requires Grows(t, t') && FilesReal(t, s.l.files) && HeldReal(t, s.held) && BasesReached(t, s.l.rows) && RetiredInChain(t, s.retired)
    ensures FilesReal(t', s.l.files) && HeldReal(t', s.held) && BasesReached(t', s.l.rows) && RetiredInChain(t', s.retired)
  {
    hide Grows, PairReal, InChain, CurrentVersion;
    forall f | f in s.l.files ensures PairReal(t', f, s.l.files[f].version, s.l.files[f].hash) {
      PairStaysReal(t, t', f, s.l.files[f].version, s.l.files[f].hash);
    }
    forall k | k in s.held ensures PairReal(t', s.held[k].0, s.held[k].1.version, s.held[k].1.hash) {
      PairStaysReal(t, t', s.held[k].0, s.held[k].1.version, s.held[k].1.hash);
    }
    forall r | r in s.l.rows ensures s.l.rows[r].base <= CurrentVersion(t', s.l.rows[r].fileId) {
      VersionReached(t, t', s.l.rows[r].fileId);
    }
    forall j | 0 <= j < |s.retired| ensures InChain(t', s.retired[j].0, s.retired[j].1) {
      ChainStays(t, t', s.retired[j].0, s.retired[j].1);
    }
  }

  lemma CloudMovesKeep(s: System, e: Event)
    requires CloudSide(s)
    ensures CloudSide(s.(cloud := Next(s.cloud, e))) && Grows(s.cloud.t, Next(s.cloud, e).t)
  {
    hide Inv, Next, FilesReal, HeldReal, BasesReached, RetiredInChain, JobKnows, Grows;
    var w' := Next(s.cloud, e);
    NextKeeps(s.cloud, e);
    ProcsPersist(s.cloud, e);
    RealStays(s.cloud.t, w'.t, s);
    forall r | r in s.jobs ensures JobKnows(w', s.user, s.jobs[r]) {
      JobKnowsStays(s.cloud, w', s.user, s.jobs[r]);
    }
  }

  // ---------------------------------------------------------------- changes of the local tables

  /** The columns a running job relies on. */
  predicate SameForJob(a: Row, b: Row) {
    a.fileId == b.fileId && a.operation == b.operation && a.status == b.status && a.hash == b.hash && a.receipt == b.receipt
  }

  ghost predicate JobRowsKept(rows: map<RowId, Row>, rows': map<RowId, Row>, jobs: map<RowId, Job>) {
    forall r | r in jobs && r in rows' :: r in rows && (rows[r].status == Uploading ==> SameForJob(rows[r], rows'[r]))
  }

  lemma JobsStillMatch(rows: map<RowId, Row>, rows': map<RowId, Row>, jobs: map<RowId, Job>)
    requires JobsMatch(rows, jobs) && JobRowsKept(rows, rows', jobs)
    ensures JobsMatch(rows', jobs)
  {
  }

  /** A change of the tables alone. */
  lemma LocalKeeps(s: System, l: Local, used: set<RowId>)
    requires Good(s) && FilesReal(s.cloud.t, l.files) && BasesReached(s.cloud.t, l.rows)
    requires JobRowsKept(s.l.rows, l.rows, s.jobs) && l.rows.Keys <= used && s.used <= used
    ensures Good(s.(l := l, used := used))
  {
    hide Inv, FilesReal, HeldReal, BasesReached, RetiredInChain, JobsKnow, JobsMatch, JobRowsKept;
    JobsStillMatch(s.l.rows, l.rows, s.jobs);
  }

  /** Only the sync status of some files changed. */
  predicate SamePairs(files: map<FileId, LocalFile>, files': map<FileId, LocalFile>) {
    forall f | f in files' :: f in files && files'[f].version == files[f].version && files'[f].hash == files[f].hash
  }

  lemma SamePairsReal(t: Tables, files: map<FileId, LocalFile>, files': map<FileId, LocalFile>)
    requires FilesReal(t, files) && SamePairs(files, files')
    ensures FilesReal(t, files')
  {
    hide PairReal;
    forall f | f in files' ensures PairReal(t, f, files'[f].version, files'[f].hash) {
      assert PairReal(t, f, files[f].version, files[f].hash);
    }
  }

  /** Rows that remain were there before with the same file and base. */
  predicate SameBases(rows: map<RowId, Row>, rows': map<RowId, Row>) {
    forall r | r in rows' :: r in rows && rows'[r].base == rows[r].base && rows'[r].fileId == rows[r].fileId
  }

  lemma SameBasesReached(t: Tables, rows: map<RowId, Row>, rows': map<RowId, Row>)
    requires BasesReached(t, rows) && SameBases(rows, rows')
    ensures BasesReached(t, rows')
  {
    hide CurrentVersion;
    forall r | r in rows' ensures rows'[r].base <= CurrentVersion(t, rows'[r].fileId) {
      assert rows[r].base <= CurrentVersion(t, rows[r].fileId);
    }
  }

  /** User actions and bookkeeping that neither queue content nor touch a cached pair. */
  lemma QuietKeeps(s: System, l: Local)
    requires Good(s) && SamePairs(s.l.files, l.files) && SameBases(s.l.rows, l.rows) && JobRowsKept(s.l.rows, l.rows, s.jobs)
    ensures Good(s.(l := l))
  {
    hide Inv, FilesReal, HeldReal, BasesReached, RetiredInChain, JobsKnow, JobsMatch, JobRowsKept;
    SamePairsReal(s.cloud.t, s.l.files, l.files);
    SameBasesReached(s.cloud.t, s.l.rows, l.rows);
    LocalKeeps(s, l, s.used);
  }

  lemma RealIsReached(t: Tables, f: FileId, version: nat, hash: Option<Hash>)
    requires Consistent(t) && PairReal(t, f, version, hash)
    ensures version <= CurrentVersion(t, f)
    ensures hash.Some? ==> InChain(t, f, hash.value)
  {
    if hash.Some? { assert t.versions[(f, version)].hash == hash.value; }
  }

  lemma EditKeeps(s: System, a: UpsertArgs, waiting: Option<RowId>, id: RowId, now: nat, imported: Option<SentReceipt>)
    requires Good(s)
    ensures Good(Do(s, Edit(a, waiting, id, now, imported)))
  {
    hide JobStep, Next;
    hide Inv, PairReal, HeldReal, RetiredInChain, JobsKnow, CurrentVersion, Consistent;
    if FileAtHand(s, a.f, a.file) && id !in s.used && PicksWaiting(s.l.rows, a.f, waiting) {
      AtHandIsReal(s, a.f, a.file);
      InvConsistent(s.cloud);
      RealIsReached(s.cloud.t, a.f, a.file.version, a.file.hash);
      var s' := Do(s, Edit(a, waiting, id, now, imported));
      SamePairsReal(s.cloud.t, s.l.files, s'.l.files);
      EditBases(s, a, waiting, id, now, imported);
      LocalKeeps(s, s'.l, s'.used);
    }
  }

  lemma InvConsistent(w: World)
    requires Inv(w)
    ensures Consistent(w.t)
  {
  }

  lemma AtHandIsReal(s: System, f: FileId, file: LocalFile)
    requires FileAtHand(s, f, file) && FilesReal(s.cloud.t, s.l.files) && HeldReal(s.cloud.t, s.held)
    ensures PairReal(s.cloud.t, f, file.version, file.hash)
  {
    hide PairReal;
  }

  lemma EditBases(s: System, a: UpsertArgs, waiting: Option<RowId>, id: RowId, now: nat, imported: Option<SentReceipt>)
    requires JobsMatch(s.l.rows, s.jobs) && IdsUsed(s.l.rows, s.jobs, s.used) && BasesReached(s.cloud.t, s.l.rows)
    requires id !in s.used && PicksWaiting(s.l.rows, a.f, waiting) && FileAtHand(s, a.f, a.file)
    requires a.file.version <= CurrentVersion(s.cloud.t, a.f)
    ensures var l := Do(s, Edit(a, waiting, id, now, imported)).l;
      BasesReached(s.cloud.t, l.rows) && JobRowsKept(s.l.rows, l.rows, s.jobs) && l.rows.Keys <= s.used + {id}
  {
    hide JobStep, Next;
    hide CurrentVersion, UpsertSkipped, KeyTaken;
  }

  lemma WaitKeeps(s: System, f: FileId, path: string, existing: Option<RowId>, id: RowId, backend: Backend, retryAt: nat, now: nat)
    requires Good(s)
    ensures Good(Do(s, Wait(f, path, existing, id, backend, retryAt, now)))
  {
    hide JobStep, Next;
    hide Inv, PairReal, HeldReal, RetiredInChain, JobsKnow, CurrentVersion, Consistent;
    var s' := Do(s, Wait(f, path, existing, id, backend, retryAt, now));
    if s' != s {
      InvConsistent(s.cloud);
      RealIsReached(s.cloud.t, f, s.l.files[f].version, s.l.files[f].hash);
      SamePairsReal(s.cloud.t, s.l.files, s'.l.files);
      LocalKeeps(s, s'.l, s'.used);
    }
  }

  lemma DispatchKeeps(s: System, r: RowId, now: nat)
    requires Good(s)
    ensures Good(Do(s, Dispatch(r, now)))
  {
    hide JobStep, Next;
    hide Inv, PairReal, HeldReal, RetiredInChain, FilesReal, BasesReached;
    var s' := Do(s, Dispatch(r, now));
    if s' != s {
      SamePairsReal(s.cloud.t, s.l.files, s'.l.files);
      SameBasesReached(s.cloud.t, s.l.rows, s'.l.rows);
    }
  }

  lemma PullKeeps(s: System, pid: Pid, status: SyncStatus)
    requires Good(s)
    ensures Good(Do(s, Pull(pid, status)))
  {
    hide JobStep, Next;
    hide HeldReal, RetiredInChain, BasesReached, JobsMatch, JobsKnow, Consistent, Recorded, Caused, PairReal;
    if pid in s.cloud.procs && s.cloud.procs[pid].pc.Done? && s.cloud.procs[pid].pc.reply.Content? {
      assert ValidPc(s.cloud.t, s.cloud.procs[pid].req, s.cloud.procs[pid].pc);
      hide ValidPc;
    }
  }

  lemma QuietActsKeep(s: System, act: Act)
    requires Good(s)
    requires act.CancelFile? || act.CancelRow? || act.Requeue? || act.ChooseBackend? || act.Vanish? || act.CloudStatus? || act.Forget?
    ensures Good(Do(s, act))
  {
    hide Good, JobStep, Next, SamePairs, SameBases, JobRowsKept;
    match act
    case CancelFile(f) => CancelIsQuiet(s.l, f, s.jobs); QuietKeeps(s, CancelPending(s.l, f));
    case CancelRow(r) => CancelRowIsQuiet(s.l, r, s.jobs); QuietKeeps(s, CancelPendingById(s.l, r));
    case Requeue(r) => RequeueIsQuiet(s.l, r, s.jobs); QuietKeeps(s, RequeuePending(s.l, r));
    case ChooseBackend(f, backend) => BackendIsQuiet(s.l, f, backend, s.jobs); QuietKeeps(s, SetBackendForFile(s.l, f, backend));
    case Vanish(f) => MissingIsQuiet(s.l, f, s.jobs); QuietKeeps(s, MarkMissing(s.l, f));
    case Forget(f) => ForgetIsQuiet(s.l, f, s.jobs); QuietKeeps(s, RemoveUnsynced(s.l, f));
    case CloudStatus(f, cloudStatus) => StatusIsQuiet(s.l, f, cloudStatus, s.jobs); QuietKeeps(s, MarkCloudStatus(s.l, f, cloudStatus));
  }

  ghost predicate Quiet(l: Local, l': Local, jobs: map<RowId, Job>) {
    SamePairs(l.files, l'.files) && SameBases(l.rows, l'.rows) && JobRowsKept(l.rows, l'.rows, jobs)
  }

  lemma CancelIsQuiet(l: Local, f: FileId, jobs: map<RowId, Job>)
    ensures Quiet(l, CancelPending(l, f), jobs)
  {
  }

  lemma CancelRowIsQuiet(l: Local, r: RowId, jobs: map<RowId, Job>)
    ensures Quiet(l, CancelPendingById(l, r), jobs)
  {
  }

  lemma RequeueIsQuiet(l: Local, r: RowId, jobs: map<RowId, Job>)
    ensures Quiet(l, RequeuePending(l, r), jobs)
  {
  }

  lemma BackendIsQuiet(l: Local, f: FileId, backend: Backend, jobs: map<RowId, Job>)
    ensures Quiet(l, SetBackendForFile(l, f, backend), jobs)
  {
  }

  lemma MissingIsQuiet(l: Local, f: FileId, jobs: map<RowId, Job>)
    ensures Quiet(l, MarkMissing(l, f), jobs)
  {
  }

  lemma ForgetIsQuiet(l: Local, f: FileId, jobs: map<RowId, Job>)
    ensures Quiet(l, RemoveUnsynced(l, f), jobs)
  {
  }

  lemma StatusIsQuiet(l: Local, f: FileId, cloudStatus: FileStatus, jobs: map<RowId, Job>)
    ensures Quiet(l, MarkCloudStatus(l, f, cloudStatus), jobs)
  {
  }

  lemma CrashKeeps(s: System)
    requires Good(s)
    ensures Good(Do(s, Crash))
  {
    hide Inv, PairReal, FilesReal, RetiredInChain, BasesReached;
    SameBasesReached(s.cloud.t, s.l.rows, Do(s, Crash).l.rows);
  }

  // ---------------------------------------------------------------- the steps of a job

  lemma EndJobKeeps(s: System, r: RowId)
    requires Good(s)
    ensures Good(EndJob(s, r))
  {
    hide Inv, FilesReal, HeldReal, RetiredInChain, BasesReached, JobKnows, JobMatches;
  }

  lemma WithJobKeeps(s: System, r: RowId, job: Job)
    requires Good(s) && r in s.used && JobKnows(s.cloud, s.user, job) && JobMatches(s.l.rows, r, job)
    ensures Good(WithJob(s, r, job))
  {
    hide Inv, FilesReal, HeldReal, RetiredInChain, BasesReached, JobKnows, JobMatches;
  }

  /** What an update of one row keeps. */
  predicate OnlyRow(l: Local, l': Local, r: RowId) {
    && SamePairs(l.files, l'.files) && SameBases(l.rows, l'.rows)
    && forall q | q in l'.rows && q != r :: q in l.rows && l'.rows[q] == l.rows[q]
  }

  lemma MarkRowIsLocal(l: Local, r: RowId, status: SyncStatus, retryAt: Option<nat>)
    ensures OnlyRow(l, MarkRow(l, r, status, retryAt), r)
  {
  }

  lemma OnlyRowKeeps(s: System, l: Local, r: RowId)
    requires Good(s) && OnlyRow(s.l, l, r)
    ensures Good(EndJob(s.(l := l), r))
  {
    EndJobKeeps(s, r);
    hide Good, SamePairs, SameBases;
    QuietKeeps(EndJob(s, r), l);
  }

  lemma MarkRowKeeps(s: System, r: RowId, status: SyncStatus, retryAt: Option<nat>)
    requires Good(s)
    ensures Good(EndJob(s.(l := MarkRow(s.l, r, status, retryAt)), r))
  {
    hide Good, OnlyRow, MarkRow;
    MarkRowIsLocal(s.l, r, status, retryAt);
    OnlyRowKeeps(s, MarkRow(s.l, r, status, retryAt), r);
  }

  lemma AlsoRetiredKeeps(s: System, f: FileId, hash: Hash)
    requires Good(s) && InChain(s.cloud.t, f, hash)
    ensures Good(s.(retired := s.retired + [(f, hash)]))
  {
    hide Inv, FilesReal, HeldReal, BasesReached, JobsKnow, JobsMatch, InChain;
  }

  lemma CallKeeps(s: System, r: RowId, req: Request, job: Job, x: Around)
    requires Good(s) && r in s.used && JobMatches(s.l.rows, r, job)
    requires x.pid !in s.cloud.procs ==> JobKnows(Next(s.cloud, Arrive(x.pid, req)), s.user, job)
    ensures Good(Call(s, r, req, job, x))
  {
    hide CloudSide, JobsMatch, JobMatches, JobKnows, MarkRow, Next;
    MarkRowKeeps(s, r, RetryWait, Some(x.retryAt));
    CloudMovesKeep(s, Arrive(x.pid, req));
    if !x.lost && x.pid !in s.cloud.procs {
      WithJobKeeps(s.(cloud := Next(s.cloud, Arrive(x.pid, req))), r, job);
    }
  }

  /** markSynced and the rebase: the cached pair is the cloud's answer, the other rows' new base is
      a version the cloud has reached, and the retired content is in the chain. */
  lemma RetireKeeps(s: System, r: RowId, f: FileId, version: nat, hash: Option<Hash>, x: Around)
    requires Good(s) && r in s.jobs && s.jobs[r].row.fileId == f
    requires PairReal(s.cloud.t, f, version, hash)
    requires s.jobs[r].row.hash.Some? ==> InChain(s.cloud.t, f, s.jobs[r].row.hash.value)
    ensures Good(Retire(s, r, f, version, hash, x))
  {
    var ended := EndJob(s, r);
    EndJobKeeps(s, r);
    InvConsistent(s.cloud);
    RealIsReached(s.cloud.t, f, version, hash);
    RetiredFiles(s, r, version, hash);
    RetiredRows(s, r, f, version, hash, x);
    MatchAt(s, r);
    hide Good, FilesReal, BasesReached, JobRowsKept, InChain, MarkSynced, Rebased, UniqueKeysIn, Consistent, PairReal, JobKnows, CurrentVersion;
    var l := Retire(s, r, f, version, hash, x).l;
    assert ended.l == s.l && ended.used == s.used && ended.cloud == s.cloud && ended.jobs == s.jobs - {r};
    LocalOnlyKeeps(ended, l);
    if r in s.l.rows && s.l.rows[r].hash.Some? { AlsoRetiredKeeps(ended.(l := l), f, s.l.rows[r].hash.value); }
  }

  lemma LocalOnlyKeeps(s: System, l: Local)
    requires Good(s) && FilesReal(s.cloud.t, l.files) && BasesReached(s.cloud.t, l.rows)
    requires JobRowsKept(s.l.rows, l.rows, s.jobs) && l.rows.Keys <= s.used
    ensures Good(s.(l := l))
  {
    hide Good, FilesReal, BasesReached, JobRowsKept;
    LocalKeeps(s, l, s.used);
    assert s.(l := l, used := s.used) == s.(l := l);
  }

  lemma MatchAt(s: System, r: RowId)
    requires Good(s) && r in s.jobs
    ensures JobMatches(s.l.rows, r, s.jobs[r]) && JobKnows(s.cloud, s.user, s.jobs[r]) && r in s.used
  {
    hide Inv, FilesReal, HeldReal, BasesReached, JobKnows, JobMatches;
  }

  lemma RetiredFiles(s: System, r: RowId, version: nat, hash: Option<Hash>)
    requires Good(s) && r in s.jobs && PairReal(s.cloud.t, s.jobs[r].row.fileId, version, hash)
    ensures FilesReal(s.cloud.t, MarkSynced(s.l, r, version, hash).files)
  {
    MatchAt(s, r);
    hide Inv, PairReal, HeldReal, BasesReached, JobsKnow, JobsMatch, RetiredInChain;
    SyncedFilesReal(s.cloud.t, s.l, r, version, hash);
  }

  lemma SyncedFilesReal(t: Tables, l: Local, r: RowId, version: nat, hash: Option<Hash>)
    requires FilesReal(t, l.files) && (r in l.rows ==> PairReal(t, l.rows[r].fileId, version, hash))
    ensures FilesReal(t, MarkSynced(l, r, version, hash).files)
  {
    hide PairReal;
    var files' := MarkSynced(l, r, version, hash).files;
    forall g | g in files' ensures PairReal(t, g, files'[g].version, files'[g].hash) {
      assert PairReal(t, g, l.files[g].version, l.files[g].hash);
    }
  }

  lemma RetiredRows(s: System, r: RowId, f: FileId, version: nat, hash: Option<Hash>, x: Around)
    requires Good(s) && r in s.jobs && version <= CurrentVersion(s.cloud.t, f)
    ensures var rows' := Retire(s, r, f, version, hash, x).l.rows;
      BasesReached(s.cloud.t, rows') && JobRowsKept(s.l.rows, rows', s.jobs - {r}) && rows'.Keys <= s.used
  {
    hide Inv, PairReal, HeldReal, FilesReal, JobKnows, RetiredInChain, CurrentVersion, UniqueKeysIn;
    var rows' := Retire(s, r, f, version, hash, x).l.rows;
    forall q | q in rows' ensures q in s.l.rows && rows'[q].fileId == s.l.rows[q].fileId
      && (rows'[q].base == s.l.rows[q].base || (rows'[q].fileId == f && rows'[q].base == version))
      && (s.l.rows[q].status == Uploading ==> rows'[q] == s.l.rows[q])
    {
    }
    forall q | q in rows' ensures rows'[q].base <= CurrentVersion(s.cloud.t, rows'[q].fileId) {
      assert s.l.rows[q].base <= CurrentVersion(s.cloud.t, s.l.rows[q].fileId);
    }
  }

  lemma OnErrorKeeps(s: System, r: RowId, row: Row, code: ErrorCode, x: Around)
    requires Good(s) && r in s.jobs && row == s.jobs[r].row && row.hash.Some?
    ensures Good(OnError(s, r, row, code, x))
  {
    hide Good, MarkRow, IsConflict;
    MarkRowKeeps(s, r, RetryWait, Some(x.retryAt));
    MarkRowKeeps(s, r, InError, None);
    MoveOn(s, r, Conflicting(row));
  }

  lemma MatchesAs(rows: map<RowId, Row>, r: RowId, job: Job, job': Job)
    requires JobMatches(rows, r, job) && job'.row == job.row
    ensures JobMatches(rows, r, job')
  {
  }

  lemma CancelledKeeps(s: System, r: RowId, f: FileId)
    requires Good(s)
    ensures Good(EndJob(s.(l := CancelPending(s.l, f)), r))
  {
    QuietActsKeep(s, CancelFile(f));
    EndJobKeeps(Do(s, CancelFile(f)), r);
  }

  lemma StartedKeeps(s: System, r: RowId, x: Around)
    requires Good(s) && r in s.jobs && s.jobs[r].Started?
    ensures Good(JobStep(s, r, x))
  {
    hide Good, InChain, MarkRow;
    var row := s.jobs[r].row;
    MatchAt(s, r);
    MarkRowKeeps(s, r, RetryWait, Some(x.retryAt));
    if row.fileId in s.l.files {
      CachedIsInChain(s, row.fileId);
      MoveOn(s, r, Hashing(row, s.l.files[row.fileId].hash));
    }
  }

  lemma CachedIsInChain(s: System, f: FileId)
    requires Good(s) && f in s.l.files
    ensures s.l.files[f].hash.Some? ==> InChain(s.cloud.t, f, s.l.files[f].hash.value)
  {
    hide Inv, HeldReal, BasesReached, JobsKnow, JobsMatch, InChain, PairReal;
    InvConsistent(s.cloud);
    RealIsReached(s.cloud.t, f, s.l.files[f].version, s.l.files[f].hash);
  }

  /** A job that changes its own row and goes on. */
  lemma RowAndJob(s: System, l: Local, r: RowId, job: Job)
    requires Good(s) && r in s.jobs && OnlyRow(s.l, l, r) && JobKnows(s.cloud, s.user, job) && JobMatches(l.rows, r, job)
    ensures Good(WithJob(s.(l := l), r, job))
  {
    MatchAt(s, r);
    hide Good, OnlyRow, JobKnows, JobMatches;
    OnlyRowKeeps(s, l, r);
    WithJobKeeps(EndJob(s.(l := l), r), r, job);
    assert (s.jobs - {r})[r := job] == s.jobs[r := job];
  }

  lemma HashingKeeps(s: System, r: RowId, x: Around)
    requires Good(s) && r in s.jobs && s.jobs[r].Hashing?
    ensures Good(JobStep(s, r, x))
  {
    hide CloudSide, JobsMatch, MarkRow, InChain;
    var row := s.jobs[r].row;
    MatchAt(s, r);
    MarkRowKeeps(s, r, InError, None);
    MarkRowKeeps(s, r, RetryWait, Some(x.retryAt));
    if x.content.Some? {
      if row.hash.None? {
        if s.jobs[r].cached == x.content {
          NoChangeKeeps(s, r, x.content.value);
        } else if r in s.l.rows && s.l.rows[r].operation == Upsert {
          PrepareKeeps(s, r, x.content.value);
        }
      } else {
        CancelledKeeps(s, r, row.fileId);
        MatchesAs(s.l.rows, r, s.jobs[r], Asking(row));
        WithJobKeeps(s, r, Asking(row));
      }
    }
  }

  lemma NoChangeKeeps(s: System, r: RowId, hash: Hash)
    requires Good(s) && r in s.jobs && InChain(s.cloud.t, s.jobs[r].row.fileId, hash)
    ensures Good(EndJob(s.(l := MarkPendingNoChange(s.l, r),
      retired := if r in s.l.rows then s.retired + [(s.jobs[r].row.fileId, hash)] else s.retired), r))
  {
    hide Good, InChain, MarkPendingNoChange;
    var l := MarkPendingNoChange(s.l, r);
    NoChangeIsLocal(s.l, r);
    OnlyRowKeeps(s, l, r);
    if r in s.l.rows { AlsoRetiredKeeps(EndJob(s.(l := l), r), s.jobs[r].row.fileId, hash); }
  }

  lemma NoChangeIsLocal(l: Local, r: RowId)
    ensures OnlyRow(l, MarkPendingNoChange(l, r), r)
  {
  }

  lemma PrepareKeeps(s: System, r: RowId, hash: Hash)
    requires Good(s) && r in s.jobs && r in s.l.rows && s.l.rows[r].operation == Upsert
    ensures var l := PreparePendingUpload(s.l, r, hash); Good(WithJob(s.(l := l), r, Asking(l.rows[r])))
  {
    hide Good;
    var l := PreparePendingUpload(s.l, r, hash);
    AskingKnows(s.cloud, s.user, l.rows[r]);
    RowAndJob(s, l, r, Asking(l.rows[r]));
  }

  lemma AskingKnows(cloud: World, user: UserId, row: Row)
    requires row.hash.Some?
    ensures JobKnows(cloud, user, Asking(row))
  {
  }

  /** The worker's answer to a preflight of this row. */
  lemma AnswerIsFor(s: System, r: RowId)
    requires Good(s) && r in s.jobs && s.jobs[r].AwaitPreflight? && s.cloud.procs[s.jobs[r].pid].pc.Done?
    ensures var row := s.jobs[r].row; var reply := s.cloud.procs[s.jobs[r].pid].pc.reply; var t := s.cloud.t;
      match reply
      case Noop(f, v, h) => PairReal(t, row.fileId, v, Some(h)) && InChain(t, row.fileId, row.hash.value)
      case AlreadyCommitted(f, i, v, h) => PairReal(t, row.fileId, v, h) && InChain(t, row.fileId, row.hash.value)
      case UploadRequired(f, i) => IntentFor(t, i, row)
      case CommitRequired(f, i) => IntentFor(t, i, row)
      case _ => true
  {
    MatchAt(s, r);
    var row := s.jobs[r].row;
    var p := s.cloud.procs[s.jobs[r].pid];
    DoneHolds(s.cloud, s.jobs[r].pid);
    hide Good, Inv;
    match p.pc.reply
    case Noop(f, v, h) => assert s.cloud.t.versions[(f, v)].hash == h;
    case AlreadyCommitted(f, i, v, h) => AboveIsInChain(s.cloud.t, f, p.req.q.base, p.req.q.hash);
    case _ =>
  }

  lemma DoneHolds(w: World, pid: Pid)
    requires Inv(w) && pid in w.procs && w.procs[pid].pc.Done?
    ensures ReplyHolds(w.t, w.procs[pid].req, w.procs[pid].pc.reply)
  {
    assert ValidPc(w.t, w.procs[pid].req, w.procs[pid].pc);
    hide Consistent, Recorded, Caused, ReplyHolds;
  }

  lemma AboveIsInChain(t: Tables, f: FileId, base: nat, hash: Hash)
    requires InChainAbove(t, f, base, hash)
    ensures InChain(t, f, hash)
  {
  }

  /** The same as facts a step needs one by one. */
  lemma Knows(s: System, r: RowId)
    requires Good(s) && r in s.jobs
    ensures var job := s.jobs[r];
      && (!job.Started? && !job.Hashing? ==> job.row.hash.Some?)
      && (job.Storing? || job.Sent? || job.Reporting? || job.AwaitStored? || job.Committing? || job.AwaitCommit? ==>
            IntentFor(s.cloud.t, job.intent, job.row))
      && (job.AwaitPreflight? || job.AwaitCommit? || job.AwaitCopy? ==> job.pid in s.cloud.procs)
  {
    MatchAt(s, r);
    hide Good, JobMatches, IntentFor;
  }

  lemma PreflightAnsweredKeeps(s: System, r: RowId, x: Around)
    requires Good(s) && r in s.jobs && s.jobs[r].AwaitPreflight?
    ensures Good(JobStep(s, r, x))
  {
    hide Good, JobMatches, MarkRow, InChain, IntentFor, PairReal, Retire, OnError, CancelPending, HashedStep, StoreStep, Call, UpdateCloudState, SetUploadReceipt, Next;
    Knows(s, r);
    var row := s.jobs[r].row;
    MarkRowKeeps(s, r, RetryWait, Some(x.retryAt));
    if s.cloud.procs[s.jobs[r].pid].pc.Done? {
      AnswerIsFor(s, r);
      CancelledKeeps(s, r, row.fileId);
      var reply := s.cloud.procs[s.jobs[r].pid].pc.reply;
      match reply
      case Noop(f, v, h) => RetireKeeps(s, r, row.fileId, v, Some(h), x);
      case AlreadyCommitted(f, i, v, h) => RetireKeeps(s, r, row.fileId, v, h, x);
      case Conflict(_, _, _) => MoveOn(s, r, Conflicting(row));
      case UploadRequired(_, i) => MoveOn(s, r, Storing(row, i));
      case CommitRequired(_, i) => MoveOn(s, r, Committing(row, i));
      case Failed(code) => OnErrorKeeps(s, r, row, code, x);
      case _ =>
    }
  }

  /** The next step of a job that keeps its row. */
  lemma MoveOn(s: System, r: RowId, job: Job)
    requires Good(s) && r in s.jobs && job.row == s.jobs[r].row && JobKnows(s.cloud, s.user, job)
    ensures Good(WithJob(s, r, job))
  {
    MatchAt(s, r);
    hide Good, JobKnows;
    MatchesAs(s.l.rows, r, s.jobs[r], job);
    WithJobKeeps(s, r, job);
  }

  lemma CallMovesOn(s: System, r: RowId, req: Request, job: Job, x: Around)
    requires Good(s) && r in s.jobs && job.row == s.jobs[r].row && job.row.hash.Some?
    requires match job
      case AwaitPreflight(row, pid) => pid == x.pid && req.Preflight? && req.q.fileId == Some(row.fileId) && Some(req.q.hash) == row.hash
      case AwaitStored(row, i, pid) => IntentFor(s.cloud.t, i, row)
      case AwaitCommit(row, i, pid) => pid == x.pid && IntentFor(s.cloud.t, i, row) && req == Commit(s.user, i)
      case AwaitCopy(row, pid) => pid == x.pid && req == Download(row.fileId)
      case _ => false
    ensures Good(Call(s, r, req, job, x))
  {
    MatchAt(s, r);
    hide Good, JobMatches, IntentFor;
    MatchesAs(s.l.rows, r, s.jobs[r], job);
    CallKeeps(s, r, req, job, x);
  }

  lemma StoringKeeps(s: System, r: RowId, x: Around)
    requires Good(s) && r in s.jobs && s.jobs[r].Storing?
    ensures Good(JobStep(s, r, x))
  {
    MatchAt(s, r);
    hide Good, JobStep, JobMatches, JobKnows, IntentFor;
    var row := s.jobs[r].row;
    if row.receipt.Some? {
      StoredKeeps(s, r, x);
    } else if row.backend == Bot {
      UploadingKeeps(s, r, x);
    } else {
      SendingKeeps(s, r, x);
    }
  }

  lemma StoredKeeps(s: System, r: RowId, x: Around)
    requires Good(s) && r in s.jobs && s.jobs[r].Storing? && s.jobs[r].row.hash.Some? && s.jobs[r].row.receipt.Some?
    ensures Good(JobStep(s, r, x))
  {
    hide Good, IntentFor;
    Knows(s, r);
    MoveOn(s, r, Reporting(s.jobs[r].row, s.jobs[r].intent));
  }

  lemma UploadingKeeps(s: System, r: RowId, x: Around)
    requires Good(s) && r in s.jobs && s.jobs[r].Storing? && s.jobs[r].row.hash.Some?
    requires s.jobs[r].row.receipt.None? && s.jobs[r].row.backend == Bot
    ensures Good(JobStep(s, r, x))
  {
    hide Good, IntentFor, Call, MarkRow,
      HashedStep, PreflightAnswered, OnError, Retire, UpdateCloudState, SetUploadReceipt, CancelPending, Next, PreflightOf, InChain, PairReal, JobMatches;
    Knows(s, r);
    var row := s.jobs[r].row; var i := s.jobs[r].intent;
    if x.content.Some? {
      SentKeeps(s, s.sent, s.uploads + [r]);
      CallMovesOn(s.(uploads := s.uploads + [r]), r, Upload(s.user, i, x.content.value), AwaitStored(row, i, x.pid), x);
    } else {
      MarkRowKeeps(s, r, InError, None);
    }
  }

  lemma SendingKeeps(s: System, r: RowId, x: Around)
    requires Good(s) && r in s.jobs && s.jobs[r].Storing? && s.jobs[r].row.hash.Some?
    requires s.jobs[r].row.receipt.None? && s.jobs[r].row.backend != Bot
    ensures Good(JobStep(s, r, x))
  {
    hide Good, IntentFor, MarkRow,
      HashedStep, PreflightAnswered, OnError, Retire, UpdateCloudState, SetUploadReceipt, CancelPending, Next, PreflightOf, InChain, PairReal, JobMatches;
    Knows(s, r);
    var row := s.jobs[r].row; var i := s.jobs[r].intent;
    if x.works {
      var job := Sent(row, i, SentReceipt(x.message, row.hash.value));
      MoveOn(s, r, job);
      SentKeeps(WithJob(s, r, job), s.sent + [r], s.uploads);
    } else {
      MarkRowKeeps(s, r, RetryWait, Some(x.retryAt));
    }
  }

  lemma SentKeeps(s: System, sent: seq<RowId>, uploads: seq<RowId>)
    requires Good(s)
    ensures Good(s.(sent := sent, uploads := uploads))
  {
    hide Inv, FilesReal, HeldReal, BasesReached, JobsKnow, JobsMatch, RetiredInChain;
  }

  lemma PersistReceiptKeeps(s: System, r: RowId, x: Around)
    requires Good(s) && r in s.jobs && s.jobs[r].Sent?
    ensures Good(JobStep(s, r, x))
  {
    var row := s.jobs[r].row; var i := s.jobs[r].intent; var receipt := s.jobs[r].receipt;
    var l := SetUploadReceipt(s.l, r, receipt);
    var row' := row.(receipt := Some(receipt), backend := UserGroup);
    MatchAt(s, r);
    hide Good, IntentFor;
    IntentForSame(s.cloud.t, i, row, row');
    RowAndJob(s, l, r, Reporting(row', i));
  }

  lemma IntentForSame(t: Tables, i: IntentId, row: Row, row': Row)
    requires IntentFor(t, i, row) && row'.fileId == row.fileId && row'.hash == row.hash
    ensures IntentFor(t, i, row')
  {
  }

  lemma AwaitStoredKeeps(s: System, r: RowId, x: Around)
    requires Good(s) && r in s.jobs && s.jobs[r].AwaitStored?
    ensures Good(JobStep(s, r, x))
  {
    hide Good, JobMatches, MarkRow, InChain, IntentFor, PairReal, Retire, OnError, CancelPending, HashedStep, StoreStep, PreflightAnswered, Call, UpdateCloudState, SetUploadReceipt, Next;
    Knows(s, r);
    var row := s.jobs[r].row;
    MarkRowKeeps(s, r, RetryWait, Some(x.retryAt));
    MoveOn(s, r, Committing(row, s.jobs[r].intent));
    if s.jobs[r].pid in s.cloud.procs && s.cloud.procs[s.jobs[r].pid].pc.Done? && s.cloud.procs[s.jobs[r].pid].pc.reply.Failed? {
      OnErrorKeeps(s, r, row, s.cloud.procs[s.jobs[r].pid].pc.reply.code, x);
    }
  }

  lemma CommittedIsFor(s: System, r: RowId)
    requires Good(s) && r in s.jobs && s.jobs[r].AwaitCommit?
    requires s.cloud.procs[s.jobs[r].pid].pc.Done? && s.cloud.procs[s.jobs[r].pid].pc.reply.CommitOk?
    ensures var row := s.jobs[r].row; var reply := s.cloud.procs[s.jobs[r].pid].pc.reply;
      PairReal(s.cloud.t, row.fileId, reply.version, Some(reply.hash)) && InChain(s.cloud.t, row.fileId, row.hash.value)
  {
    MatchAt(s, r);
    DoneHolds(s.cloud, s.jobs[r].pid);
    hide Good, Inv;
    var i := s.jobs[r].intent;
    AboveIsInChain(s.cloud.t, s.jobs[r].row.fileId, s.cloud.t.intents[i].baseVersion, s.cloud.t.intents[i].hash);
  }

  lemma AwaitCommitKeeps(s: System, r: RowId, x: Around)
    requires Good(s) && r in s.jobs && s.jobs[r].AwaitCommit?
    ensures Good(JobStep(s, r, x))
  {
    hide Good, JobKnows, JobMatches, MarkRow, InChain, IntentFor, PairReal, Retire, OnError, CancelPending, HashedStep, StoreStep, PreflightAnswered, Call, UpdateCloudState, SetUploadReceipt, Next;
    Knows(s, r);
    var row := s.jobs[r].row;
    MarkRowKeeps(s, r, RetryWait, Some(x.retryAt));
    if s.cloud.procs[s.jobs[r].pid].pc.Done? {
      var reply := s.cloud.procs[s.jobs[r].pid].pc.reply;
      if reply.CommitOk? {
        CommittedIsFor(s, r);
        RetireKeeps(s, r, row.fileId, reply.version, Some(reply.hash), x);
      } else if reply.Failed? {
        OnErrorKeeps(s, r, row, reply.code, x);
      }
    }
  }

  lemma ConflictingKeeps(s: System, r: RowId, x: Around)
    requires Good(s) && r in s.jobs && s.jobs[r].Conflicting?
    ensures Good(JobStep(s, r, x))
  {
    hide Good, JobKnows, JobMatches, MarkRow, Next, HashedStep, PreflightAnswered, StoreStep, Retire, OnError, UpdateCloudState, SetUploadReceipt;
    Knows(s, r);
    var row := s.jobs[r].row;
    EndJobKeeps(s, r);
    MarkRowKeeps(s, r, InConflict, None);
    CallMovesOn(s, r, Download(row.fileId), AwaitCopy(row, x.pid), x);
  }

  lemma AwaitCopyKeeps(s: System, r: RowId, x: Around)
    requires Good(s) && r in s.jobs && s.jobs[r].AwaitCopy?
    ensures Good(JobStep(s, r, x))
  {
    MatchAt(s, r);
    var row := s.jobs[r].row; var pid := s.jobs[r].pid;
    hide Good, MarkRow, UpdateCloudState;
    MarkRowKeeps(s, r, InConflict, None);
    if s.cloud.procs[pid].pc.Done? && s.cloud.procs[pid].pc.reply.Content? {
      var reply := s.cloud.procs[pid].pc.reply;
      DownloadedKeeps(s, pid, row.fileId);
      MarkRowKeeps(s.(l := UpdateCloudState(s.l, row.fileId, reply.version, reply.current, Synced)), r, InConflict, None);
    }
  }

  lemma DownloadedKeeps(s: System, pid: Pid, f: FileId)
    requires Good(s) && pid in s.cloud.procs && s.cloud.procs[pid].req == Download(f)
    requires s.cloud.procs[pid].pc.Done? && s.cloud.procs[pid].pc.reply.Content?
    ensures Good(s.(l := UpdateCloudState(s.l, f, s.cloud.procs[pid].pc.reply.version, s.cloud.procs[pid].pc.reply.current, Synced)))
  {
    DoneHolds(s.cloud, pid);
    hide Inv, PairReal, HeldReal, BasesReached, RetiredInChain, JobsKnow, JobMatches;
  }

  lemma JobStepKeeps(s: System, r: RowId, x: Around)
    requires Good(s) && CanStep(s, r)
    ensures Good(JobStep(s, r, x))
  {
    MatchAt(s, r);
    var row := s.jobs[r].row;
    match s.jobs[r] {
      case Started(_) => hide Good, JobStep; StartedKeeps(s, r, x);
      case Hashing(_, _) => hide Good, JobStep; HashingKeeps(s, r, x);
      case Asking(_) => hide Good; CallMovesOn(s, r, PreflightOf(s, row, x), AwaitPreflight(row, x.pid), x);
      case AwaitPreflight(_, _) => hide Good, JobStep; PreflightAnsweredKeeps(s, r, x);
      case Storing(_, _) => hide Good, JobStep; StoringKeeps(s, r, x);
      case Sent(_, _, _) => hide Good, JobStep; PersistReceiptKeeps(s, r, x);
      case Reporting(_, i) => ReportingKeeps(s, r, x);
      case AwaitStored(_, _, _) => hide Good, JobStep; AwaitStoredKeeps(s, r, x);
      case Committing(_, i) => hide Good; CallMovesOn(s, r, Commit(s.user, i), AwaitCommit(row, i, x.pid), x);
      case AwaitCommit(_, _, _) => hide Good, JobStep; AwaitCommitKeeps(s, r, x);
      case Conflicting(_) => hide Good, JobStep; ConflictingKeeps(s, r, x);
      case AwaitCopy(_, _) => hide Good, JobStep; AwaitCopyKeeps(s, r, x);
    }
  }

  lemma ReportingKeeps(s: System, r: RowId, x: Around)
    requires Good(s) && r in s.jobs && s.jobs[r].Reporting?
    ensures Good(JobStep(s, r, x))
  {
    hide Good, JobKnows, JobMatches, MarkRow, IntentFor, Call, Next, HashedStep, PreflightAnswered, StoreStep, Retire, OnError, UpdateCloudState, SetUploadReceipt;
    var row := s.jobs[r].row;
    Knows(s, r);
    MarkRowKeeps(s, r, RetryWait, Some(x.retryAt));
    if row.receipt.Some? {
      CallMovesOn(s, r, Receipt(s.user, s.jobs[r].intent, row.receipt.value.hash), AwaitStored(row, s.jobs[r].intent, x.pid), x);
    }
  }

  // ---------------------------------------------------------------- every run

  lemma DoKeeps(s: System, act: Act)
    requires Good(s)
    ensures Good(Do(s, act)) && Grows(s.cloud.t, Do(s, act).cloud.t)
  {
    OneEventAtMost(s, act);
    match act {
      case CloudMoves(e) => hide Next, JobsMatch; CloudMovesKeep(s, e);
      case Track(f) => TrackKeeps(s, f);
      case Hold(k, f) => HoldKeeps(s, k, f);
      case Edit(a, waiting, id, now, imported) => hide Good, Do; EditKeeps(s, a, waiting, id, now, imported);
      case Wait(f, path, existing, id, backend, retryAt, now) => hide Good, Do; WaitKeeps(s, f, path, existing, id, backend, retryAt, now);
      case Dispatch(r, now) => hide Good, Do; DispatchKeeps(s, r, now);
      case Work(r, x) => hide Good, JobStep; WorkKeeps(s, r, x);
      case Pull(pid, status) => hide Good, Do; PullKeeps(s, pid, status);
      case Crash => hide Good, Do; CrashKeeps(s);
      case AdoptEmpty(f, cloudStatus) => hide Good, Do; AdoptKeeps(s, f, cloudStatus);
      case _ => hide Good, Do; QuietActsKeep(s, act);
    }
  }

  lemma WorkKeeps(s: System, r: RowId, x: Around)
    requires Good(s)
    ensures Good(Do(s, Work(r, x)))
  {
    hide Good, JobStep;
    if CanStep(s, r) { JobStepKeeps(s, r, x); }
  }

  lemma TrackKeeps(s: System, f: FileId)
    requires Good(s)
    ensures Good(Do(s, Track(f)))
  {
    hide JobStep, Next, Inv, HeldReal, RetiredInChain, BasesReached, JobsMatch, JobsKnow;
  }

  /** Adopting a file the cloud has no version of. */
  lemma AdoptKeeps(s: System, f: FileId, cloudStatus: FileStatus)
    requires Good(s)
    ensures Good(Do(s, AdoptEmpty(f, cloudStatus)))
  {
    hide JobStep, Next, Inv, HeldReal, RetiredInChain, BasesReached, JobsMatch, JobsKnow;
  }

  lemma HoldKeeps(s: System, k: nat, f: FileId)
    requires Good(s)
    ensures Good(Do(s, Hold(k, f)))
  {
    hide JobStep, Next, Inv, PairReal, RetiredInChain, BasesReached, JobsMatch, JobsKnow;
  }

  /** The cloud only changes by the worker's own steps. */
  lemma OneEventAtMost(s: System, act: Act)
    requires Good(s)
    ensures Do(s, act).cloud == s.cloud || exists e :: Do(s, act).cloud == Next(s.cloud, e)
    ensures Grows(s.cloud.t, Do(s, act).cloud.t)
  {
    hide Good, Next, JobStep;
    CloudOfStep(s, act);
    OnlyGrows(s, Do(s, act).cloud);
  }

  lemma CloudOfStep(s: System, act: Act)
    ensures Do(s, act).cloud == s.cloud || exists e :: Do(s, act).cloud == Next(s.cloud, e)
  {
    hide Next, JobStep;
    match act
    case CloudMoves(e) => assert Do(s, act).cloud == Next(s.cloud, e);
    case Work(r, x) =>
      if CanStep(s, r) { CloudOfJob(s, r, x); }
    case _ =>
  }

  lemma CloudOfJob(s: System, r: RowId, x: Around)
    requires CanStep(s, r)
    ensures JobStep(s, r, x).cloud == s.cloud || exists e :: JobStep(s, r, x).cloud == Next(s.cloud, e)
  {
    hide Next, MarkRow, MarkSynced, CancelPending, Rebased, UniqueKeysIn, UpdateCloudState;
    match s.jobs[r]
    case Asking(row) => assert JobStep(s, r, x).cloud in {s.cloud, Next(s.cloud, Arrive(x.pid, PreflightOf(s, row, x)))};
    case Storing(row, i) =>
      if x.content.Some? { assert JobStep(s, r, x).cloud in {s.cloud, Next(s.cloud, Arrive(x.pid, Upload(s.user, i, x.content.value)))}; }
    case Reporting(row, i) =>
      if row.receipt.Some? { assert JobStep(s, r, x).cloud in {s.cloud, Next(s.cloud, Arrive(x.pid, Receipt(s.user, i, row.receipt.value.hash)))}; }
    case Committing(row, i) => assert JobStep(s, r, x).cloud in {s.cloud, Next(s.cloud, Arrive(x.pid, Commit(s.user, i)))};
    case Conflicting(row) => assert JobStep(s, r, x).cloud in {s.cloud, Next(s.cloud, Arrive(x.pid, Download(row.fileId)))};
    case _ =>
  }

  lemma OnlyGrows(s: System, w: World)
    requires Good(s) && (w == s.cloud || exists e :: w == Next(s.cloud, e))
    ensures Grows(s.cloud.t, w.t)
  {
    hide Inv, Next, Grows, FilesReal, HeldReal, BasesReached, RetiredInChain, JobsKnow, JobsMatch;
    if w == s.cloud { GrowsRefl(w.t); }
    else {
      var e :| w == Next(s.cloud, e);
      NextKeeps(s.cloud, e);
    }
  }

  /** Whatever the user, the network, the other clients and crashes do, in any order. */
  lemma {:induction false} Played(user: UserId, acts: seq<Act>)
    ensures Good(Play(Begin(user), acts))
  {
    if acts == [] {
      StartInv();
      hide Inv;
    } else {
      hide Good, Do;
      Played(user, acts[..|acts| - 1]);
      DoKeeps(Play(Begin(user), acts[..|acts| - 1]), acts[|acts| - 1]);
    }
  }

  /** So the cloud of such a run is one of the runs of the worker, and all that holds of those
      holds of it: one chain, one version per idempotency key, permanent history. */
  lemma {:induction false} CloudIsARun(user: UserId, acts: seq<Act>) returns (events: seq<Event>)
    ensures Play(Begin(user), acts).cloud == Runs(Start, events)
  {
    hide Next, Do;
    if acts == [] { return []; }
    var s := Play(Begin(user), acts[..|acts| - 1]);
    events := CloudIsARun(user, acts[..|acts| - 1]);
    CloudOfStep(s, acts[|acts| - 1]);
    if Do(s, acts[|acts| - 1]).cloud != s.cloud {
      var e :| Do(s, acts[|acts| - 1]).cloud == Next(s.cloud, e);
      assert (events + [e])[..|events + [e]| - 1] == events;
      events := events + [e];
    }
  }

  /** However often a client crashes, loses replies and asks again: two versions never come from
      one idempotency key of one owner. */
  lemma RetriesCommitOnce(user: UserId, acts: seq<Act>, a: nat, b: nat)
    requires var w := Play(Begin(user), acts).cloud;
      a < b < |w.created| && w.created[a].cause.ByIntent? && w.created[b].cause.ByIntent?
    ensures var w := Play(Begin(user), acts).cloud;
      var i := w.created[a].cause.intentId; var j := w.created[b].cause.intentId;
      i in w.t.intents && j in w.t.intents
      && (w.t.intents[i].owner, w.t.intents[i].key) != (w.t.intents[j].owner, w.t.intents[j].key)
  {
    hide Runs, Play;
    var events := CloudIsARun(user, acts);
    OneVersionPerKey(events, a, b);
  }

  /** The cached pair of every local file is either "never synced" or a version the cloud really
      has, with that content. */
  lemma CachedPairsAreReal(user: UserId, acts: seq<Act>, f: FileId)
    requires f in Play(Begin(user), acts).l.files
    ensures var s := Play(Begin(user), acts); var file := s.l.files[f];
      (file.version == 0 && file.hash.None?)
      || ((f, file.version) in s.cloud.t.versions && file.hash == Some(s.cloud.t.versions[(f, file.version)].hash))
  {
    Played(user, acts);
    var s := Play(Begin(user), acts);
    assert PairReal(s.cloud.t, f, s.l.files[f].version, s.l.files[f].hash);
  }

  /** No queued change builds on a version the cloud has not reached. */
  lemma QueuedBasesAreReached(user: UserId, acts: seq<Act>, r: RowId)
    requires r in Play(Begin(user), acts).l.rows
    ensures var s := Play(Begin(user), acts); var row := s.l.rows[r];
      row.base == 0 || (row.fileId in s.cloud.t.files && row.base <= s.cloud.t.files[row.fileId].currentVersion)
  {
    hide Play;
    Played(user, acts);
    var s := Play(Begin(user), acts);
    hide Inv, FilesReal, HeldReal, JobsKnow, JobsMatch, RetiredInChain;
    assert s.l.rows[r].base <= CurrentVersion(s.cloud.t, s.l.rows[r].fileId);
  }

  lemma {:induction false} PlayOn(user: UserId, acts: seq<Act>, more: seq<Act>)
    ensures Grows(Play(Begin(user), acts).cloud.t, Play(Begin(user), acts + more).cloud.t)
  {
    hide Do, Good, Grows;
    var t := Play(Begin(user), acts).cloud.t;
    if more == [] {
      assert acts + more == acts;
      GrowsRefl(t);
    } else {
      var n := |more| - 1;
      assert (acts + more)[..|acts + more| - 1] == acts + more[..n];
      PlayOn(user, acts, more[..n]);
      Played(user, acts + more[..n]);
      var s := Play(Begin(user), acts + more[..n]);
      DoKeeps(s, more[n]);
      GrowsTrans(t, s.cloud.t, Do(s, more[n]).cloud.t);
    }
  }

  /** Content that the queue gave up as synced is a version of that file in the cloud, forever:
      no later act of anyone takes it away. */
  lemma RetiredContentIsInTheCloud(user: UserId, acts: seq<Act>, more: seq<Act>, j: nat)
    requires j < |Play(Begin(user), acts).retired|
    ensures var (f, hash) := Play(Begin(user), acts).retired[j];
      exists v: nat :: var t := Play(Begin(user), acts + more).cloud.t; (f, v) in t.versions && t.versions[(f, v)].hash == hash
  {
    hide Play, Grows;
    Played(user, acts);
    PlayOn(user, acts, more);
    var s := Play(Begin(user), acts);
    hide Inv, FilesReal, HeldReal, JobsKnow, JobsMatch, BasesReached;
    ChainStays(s.cloud.t, Play(Begin(user), acts + more).cloud.t, s.retired[j].0, s.retired[j].1);
  }

  // ---------------------------------------------------------------- receipts

  /** Row r has a stored receipt, or is gone; no job of it has less. */
  predicate Settled(s: System, r: RowId) {
    && r in s.used
    && (r in s.l.rows ==> s.l.rows[r].receipt.Some?)
    && (r in s.jobs ==> s.jobs[r].row.receipt.Some? && !s.jobs[r].Sent?)
  }

  predicate StillSettled(s: System, s': System, r: RowId) {
    Settled(s', r) && TimesSent(s'.sent, r) == TimesSent(s.sent, r) && TimesSent(s'.uploads, r) == TimesSent(s.uploads, r)
  }

  function TimesSent(sent: seq<RowId>, r: RowId): nat {
    if sent == [] then 0 else TimesSent(sent[..|sent| - 1], r) + if sent[|sent| - 1] == r then 1 else 0
  }

  predicate ReceiptsStay(rows: map<RowId, Row>, rows': map<RowId, Row>) {
    forall r | r in rows' :: r in rows && (rows[r].receipt.Some? ==> rows'[r].receipt.Some?)
  }

  lemma MarksKeepReceipts(l: Local, r: RowId, f: FileId, status: SyncStatus, retryAt: Option<nat>, version: nat, hash: Option<Hash>)
    ensures ReceiptsStay(l.rows, MarkRow(l, r, status, retryAt).rows)
    ensures ReceiptsStay(l.rows, MarkSynced(l, r, version, hash).rows)
    ensures ReceiptsStay(l.rows, CancelPending(l, f).rows)
    ensures ReceiptsStay(l.rows, MarkPendingNoChange(l, r).rows)
    ensures ReceiptsStay(l.rows, Rebased(l.rows, f, version))
  {
  }

  /** A step of job q that sends nothing and, if the job goes on, keeps the receipt it knows of. */
  predicate Careful(s: System, s': System, q: RowId) {
    && s'.used == s.used && s'.sent == s.sent && s'.uploads == s.uploads && ReceiptsStay(s.l.rows, s'.l.rows)
    && s'.jobs - {q} == s.jobs - {q}
    && (q in s'.jobs ==> q in s.jobs && !s'.jobs[q].Sent? && ReceiptKnown(s, s'.jobs[q].row.receipt, q))
  }

  predicate ReceiptKnown(s: System, receipt: Option<SentReceipt>, q: RowId)
    requires q in s.jobs
  {
    receipt.Some? || receipt == s.jobs[q].row.receipt || (q in s.l.rows && receipt == s.l.rows[q].receipt)
  }

  lemma CarefulSettled(s: System, s': System, r: RowId, q: RowId)
    requires Settled(s, r) && Careful(s, s', q)
    ensures StillSettled(s, s', r)
  {
    hide ReceiptsStay;
    assert r != q && r in s'.jobs ==> r in s'.jobs - {q};
    if r in s'.l.rows { ReceiptStays(s.l.rows, s'.l.rows, r); }
  }

  lemma ReceiptStays(rows: map<RowId, Row>, rows': map<RowId, Row>, r: RowId)
    requires ReceiptsStay(rows, rows') && r in rows'
    ensures r in rows && (rows[r].receipt.Some? ==> rows'[r].receipt.Some?)
  {
  }

  lemma MarkedCareful(s: System, q: RowId, status: SyncStatus, retryAt: Option<nat>)
    ensures Careful(s, EndJob(s.(l := MarkRow(s.l, q, status, retryAt)), q), q)
  {
    hide MarkRow, ReceiptsStay;
    MarksKeepReceipts(s.l, q, 0, status, retryAt, 0, None);
  }

  lemma RetireCareful(s: System, q: RowId, f: FileId, version: nat, hash: Option<Hash>, x: Around)
    ensures Careful(s, Retire(s, q, f, version, hash, x), q)
  {
    hide UniqueKeysIn;
  }

  lemma CallCareful(s: System, q: RowId, req: Request, job: Job, x: Around)
    requires q in s.jobs && !job.Sent? && job.row.receipt == s.jobs[q].row.receipt
    ensures Careful(s, Call(s, q, req, job, x), q)
  {
    hide MarkRow, Next;
    MarkedCareful(s, q, RetryWait, Some(x.retryAt));
  }

  lemma OnErrorCareful(s: System, q: RowId, row: Row, code: ErrorCode, x: Around)
    requires q in s.jobs && row == s.jobs[q].row
    ensures Careful(s, OnError(s, q, row, code, x), q)
  {
    hide MarkRow;
    MarkedCareful(s, q, RetryWait, Some(x.retryAt));
    MarkedCareful(s, q, InError, None);
  }

  lemma HashedCareful(s: System, q: RowId, x: Around)
    requires q in s.jobs && s.jobs[q].Hashing?
    ensures Careful(s, JobStep(s, q, x), q)
  {
    hide MarkRow;
    MarkedCareful(s, q, RetryWait, Some(x.retryAt));
    MarkedCareful(s, q, InError, None);
  }

  lemma AnsweredCareful(s: System, q: RowId, reply: Reply, x: Around)
    requires q in s.jobs && s.jobs[q].AwaitPreflight?
    ensures Careful(s, PreflightAnswered(s, q, s.jobs[q].row, reply, x), q)
  {
    hide MarkRow, Retire, OnError;
    var row := s.jobs[q].row;
    MarkedCareful(s, q, RetryWait, Some(x.retryAt));
    match reply
    case Noop(f, v, h) => RetireCareful(s, q, row.fileId, v, Some(h), x);
    case AlreadyCommitted(f, i, v, h) => RetireCareful(s, q, row.fileId, v, h, x);
    case Failed(code) => OnErrorCareful(s, q, row, code, x);
    case _ =>
  }

  /** Storing without a receipt sends, or asks the worker, once for this row; otherwise it is careful. */
  lemma StoreCareful(s: System, q: RowId, x: Around)
    requires q in s.jobs && s.jobs[q].Storing? && s.jobs[q].row.hash.Some?
    ensures var s' := JobStep(s, q, x);
      || Careful(s, s', q)
      || (s.jobs[q].row.receipt.None? && s'.sent == s.sent + [q] && s'.uploads == s.uploads
            && s' == WithJob(s.(sent := s.sent + [q]), q, s'.jobs[q]))
      || (s.jobs[q].row.receipt.None? && s'.sent == s.sent && s'.uploads == s.uploads + [q]
            && Careful(s.(uploads := s.uploads + [q]), s', q))
  {
    hide MarkRow, Call;
    var row := s.jobs[q].row; var i := s.jobs[q].intent;
    MarkedCareful(s, q, RetryWait, Some(x.retryAt));
    MarkedCareful(s, q, InError, None);
    if x.content.Some? { CallCareful(s.(uploads := s.uploads + [q]), q, Upload(s.user, i, x.content.value), AwaitStored(row, i, x.pid), x); }
  }

  lemma StoreSettled(s: System, r: RowId, q: RowId, x: Around)
    requires Settled(s, r) && q in s.jobs && s.jobs[q].Storing? && s.jobs[q].row.hash.Some?
    ensures StillSettled(s, JobStep(s, q, x), r)
  {
    hide JobStep, Careful, TimesSent;
    StoreCareful(s, q, x);
    var s' := JobStep(s, q, x);
    SentOnce(s.sent, q, r);
    SentOnce(s.uploads, q, r);
    if Careful(s, s', q) {
      CarefulSettled(s, s', r, q);
    } else if s'.uploads != s.uploads {
      CarefulSettled(s.(uploads := s.uploads + [q]), s', r, q);
    }
  }

  lemma OtherJobStepsCareful(s: System, q: RowId, x: Around)
    requires q in s.jobs && (s.jobs[q].row.hash.Some? || s.jobs[q].Started?) && !s.jobs[q].Hashing? && !s.jobs[q].Storing?
    ensures Careful(s, JobStep(s, q, x), q)
  {
    hide MarkRow, Retire, OnError, Call, PreflightAnswered, Careful;
    var row := s.jobs[q].row;
    MarkedCareful(s, q, RetryWait, Some(x.retryAt));
    MarkedCareful(s, q, InConflict, None);
    match s.jobs[q] {
      case Started(_) => if row.fileId in s.l.files { OnCareful(s, q, Hashing(row, s.l.files[row.fileId].hash)); }
      case Asking(_) => CallCareful(s, q, PreflightOf(s, row, x), AwaitPreflight(row, x.pid), x);
      case AwaitPreflight(_, pid) =>
        StillCareful(s, q);
        if pid in s.cloud.procs && s.cloud.procs[pid].pc.Done? { AnsweredCareful(s, q, s.cloud.procs[pid].pc.reply, x); }
      case Sent(_, i, receipt) => ReceiptCareful(s, q, x);
      case Reporting(_, i) =>
        if row.receipt.Some? { CallCareful(s, q, Receipt(s.user, i, row.receipt.value.hash), AwaitStored(row, i, x.pid), x); }
      case AwaitStored(_, i, pid) =>
        StillCareful(s, q);
        OnCareful(s, q, Committing(row, i));
        if pid in s.cloud.procs && s.cloud.procs[pid].pc.Done? && s.cloud.procs[pid].pc.reply.Failed? {
          OnErrorCareful(s, q, row, s.cloud.procs[pid].pc.reply.code, x);
        }
      case Committing(_, i) => CallCareful(s, q, Commit(s.user, i), AwaitCommit(row, i, x.pid), x);
      case AwaitCommit(_, i, pid) => CommitCareful(s, q, x);
      case Conflicting(_) => ConflictCareful(s, q, x);
      case AwaitCopy(_, _) => CopyCareful(s, q, x);
    }
  }

  lemma OnCareful(s: System, q: RowId, job: Job)
    requires q in s.jobs && job.row == s.jobs[q].row && !job.Sent?
    ensures Careful(s, WithJob(s, q, job), q)
  {
  }

  lemma StillCareful(s: System, q: RowId)
    requires q in s.jobs && !s.jobs[q].Sent?
    ensures Careful(s, s, q)
  {
  }

  lemma ReceiptCareful(s: System, q: RowId, x: Around)
    requires CanStep(s, q) && s.jobs[q].Sent?
    ensures Careful(s, JobStep(s, q, x), q)
  {
  }

  lemma CommitCareful(s: System, q: RowId, x: Around)
    requires CanStep(s, q) && s.jobs[q].AwaitCommit?
    ensures Careful(s, JobStep(s, q, x), q)
  {
    hide MarkRow, Retire, OnError, Careful;
    var row := s.jobs[q].row; var pid := s.jobs[q].pid;
    MarkedCareful(s, q, RetryWait, Some(x.retryAt));
    StillCareful(s, q);
    if pid in s.cloud.procs && s.cloud.procs[pid].pc.Done? {
      var reply := s.cloud.procs[pid].pc.reply;
      if reply.Failed? { OnErrorCareful(s, q, row, reply.code, x); }
      if reply.CommitOk? { RetireCareful(s, q, row.fileId, reply.version, Some(reply.hash), x); }
    }
  }

  lemma ConflictCareful(s: System, q: RowId, x: Around)
    requires CanStep(s, q) && s.jobs[q].Conflicting?
    ensures Careful(s, JobStep(s, q, x), q)
  {
    hide MarkRow, Next;
    MarkedCareful(s, q, InConflict, None);
  }

  lemma CopyCareful(s: System, q: RowId, x: Around)
    requires CanStep(s, q) && s.jobs[q].AwaitCopy?
    ensures Careful(s, JobStep(s, q, x), q)
  {
  }

  lemma SettledJobStep(s: System, r: RowId, q: RowId, x: Around)
    requires Settled(s, r)
    requires CanStep(s, q)
    ensures StillSettled(s, JobStep(s, q, x), r)
  {
    hide JobStep, Careful, Settled, StillSettled;
    if s.jobs[q].Storing? {
      StoreSettled(s, r, q, x);
    } else {
      if s.jobs[q].Hashing? { HashedCareful(s, q, x); } else { OtherJobStepsCareful(s, q, x); }
      CarefulSettled(s, JobStep(s, q, x), r, q);
    }
  }

  lemma SentOnce(sent: seq<RowId>, q: RowId, r: RowId)
    ensures TimesSent(sent + [q], r) == TimesSent(sent, r) + if q == r then 1 else 0
  {
    assert (sent + [q])[..|sent|] == sent;
  }

  lemma SettledStays(s: System, act: Act, r: RowId)
    requires Good(s) && Settled(s, r)
    ensures StillSettled(s, Do(s, act), r)
  {
    if act.Work? {
      hide Good, JobStep, Settled, StillSettled, TimesSent;
      if CanStep(s, act.r) { SettledJobStep(s, r, act.r, act.x); } else { StillItself(s, r); }
    } else {
      if act.Edit? || act.Wait? { SettledByQueueing(s, act, r); } else { SettledOtherwise(s, act, r); }
    }
  }

  lemma SettledByQueueing(s: System, act: Act, r: RowId)
    requires Good(s) && Settled(s, r) && (act.Edit? || act.Wait?)
    ensures StillSettled(s, Do(s, act), r)
  {
    hide Good, Next, JobStep, UpsertSkipped, KeyTaken, TimesSent, PicksWaiting, PicksLive, FileAtHand;
  }

  lemma StillItself(s: System, r: RowId)
    requires Settled(s, r)
    ensures StillSettled(s, s, r)
  {
  }

  lemma SettledOtherwise(s: System, act: Act, r: RowId)
    requires Good(s) && Settled(s, r) && !act.Work? && !act.Edit? && !act.Wait?
    ensures StillSettled(s, Do(s, act), r)
  {
    hide Good, Next, JobStep, UpsertSkipped, KeyTaken, TimesSent, PicksWaiting, PicksLive, FileAtHand;
  }

  /** Once the receipt of a sent message is stored with its row, nothing that happens later sends
      that row's content again, to the group or through the worker: not a crash, a lost reply, a retry,
      a cancel or a requeue. */
  lemma {:induction false} ReceiptNeverResent(user: UserId, acts: seq<Act>, more: seq<Act>, r: RowId)
    requires var s := Play(Begin(user), acts); r in s.l.rows && s.l.rows[r].receipt.Some?
    ensures StillSettled(Play(Begin(user), acts), Play(Begin(user), acts + more), r)
  {
    hide Do, Good, TimesSent;
    var s := Play(Begin(user), acts);
    if more == [] {
      assert acts + more == acts;
      Played(user, acts);
      StoredIsSettled(s, r);
    } else {
      var n := |more| - 1;
      assert (acts + more)[..|acts + more| - 1] == acts + more[..n];
      ReceiptNeverResent(user, acts, more[..n], r);
      Played(user, acts + more[..n]);
      SettledStays(Play(Begin(user), acts + more[..n]), more[n], r);
    }
  }

  lemma StoredIsSettled(s: System, r: RowId)
    requires Good(s) && r in s.l.rows && s.l.rows[r].receipt.Some?
    ensures Settled(s, r)
  {
    if r in s.jobs { MatchAt(s, r); }
    hide Inv, FilesReal, HeldReal, BasesReached, RetiredInChain, JobsKnow, JobsMatch;
  }

  // ---------------------------------------------------------------- keys tell their content

  lemma {:induction false} KeysAlwaysTell(user: UserId, acts: seq<Act>)
    ensures KeysTell(Play(Begin(user), acts).l.rows)
  {
    hide Do, Good, KeysTell;
    if acts == [] {
      assert KeysTell(map[]) by { NoRowsTell(); }
    } else {
      KeysAlwaysTell(user, acts[..|acts| - 1]);
      Played(user, acts[..|acts| - 1]);
      DoKeepsTelling(Play(Begin(user), acts[..|acts| - 1]), acts[|acts| - 1]);
    }
  }

  lemma NoRowsTell()
    ensures KeysTell(map[])
  {
  }

  lemma DoKeepsTelling(s: System, act: Act)
    requires Good(s) && KeysTell(s.l.rows)
    ensures KeysTell(Do(s, act).l.rows)
  {
    match act {
      case Edit(a, waiting, id, now, imported) => hide Good, KeysTell, JobStep; EditKeepsTelling(s, a, waiting, id, now, imported);
      case Wait(f, path, existing, id, backend, retryAt, now) =>
        hide Good, KeysTell, QueueWaiting, JobStep;
        if f in s.l.files { WaitingKeepsTelling(s.l, f, s.l.files[f], path, existing, id, backend, retryAt, now); }
      case Work(r, x) => hide Good, KeysTell, JobStep; if CanStep(s, r) { JobKeepsTelling(s, r, x); }
      case _ => hide Good, KeysTell, JobStep; QuietlyTelling(s, act);
    }
  }

  lemma QuietlyTelling(s: System, act: Act)
    requires KeysTell(s.l.rows) && !act.Edit? && !act.Wait? && !act.Work?
    ensures KeysTell(Do(s, act).l.rows)
  {
    hide KeysTell, JobStep, Next, MarkUploading, CancelPending, CancelPendingById, RequeuePending, SetBackendForFile, RecoverInterruptedJobs;
    match act
    case Track(f) => FilesKeepTelling(s.l, f, Bot, 0, None, Synced, Active);
    case Dispatch(r, now) => ProgressKeepsTelling(s.l, r, Pending, None, SentReceipt(0, 0), 0, None);
    case Pull(pid, status) =>
    case CancelFile(f) => FilesKeepTelling(s.l, f, Bot, 0, None, Synced, Active);
    case CancelRow(r) => ProgressKeepsTelling(s.l, r, Pending, None, SentReceipt(0, 0), 0, None);
    case Requeue(r) => ProgressKeepsTelling(s.l, r, Pending, None, SentReceipt(0, 0), 0, None);
    case ChooseBackend(f, backend) => FilesKeepTelling(s.l, f, backend, 0, None, Synced, Active);
    case Vanish(f) => FilesKeepTelling(s.l, f, Bot, 0, None, Synced, Active);
    case Forget(f) => FilesKeepTelling(s.l, f, Bot, 0, None, Synced, Active);
    case AdoptEmpty(f, cloudStatus) => FilesKeepTelling(s.l, f, Bot, 0, None, Synced, cloudStatus);
    case CloudStatus(f, cloudStatus) => FilesKeepTelling(s.l, f, Bot, 0, None, Synced, cloudStatus);
    case Crash => FilesKeepTelling(s.l, 0, Bot, 0, None, Synced, Active);
    case _ =>
  }

  lemma EditKeepsTelling(s: System, a: UpsertArgs, waiting: Option<RowId>, id: RowId, now: nat, imported: Option<SentReceipt>)
    requires KeysTell(s.l.rows)
    ensures KeysTell(Do(s, Edit(a, waiting, id, now, imported)).l.rows)
  {
    hide KeysTell, JobStep, Next, QueueUpsert, SetUploadReceipt, FileAtHand;
    if PicksWaiting(s.l.rows, a.f, waiting) {
      QueueingKeepsTelling(s.l, a, waiting, id, now);
      var l := QueueUpsert(s.l, a, waiting, id, now);
      ProgressKeepsTelling(l, if waiting.Some? then waiting.value else id, Pending, None,
                           SentReceipt(if imported.Some? then imported.value.messageId else 0, a.hash), 0, None);
    }
  }

  lemma JobKeepsTelling(s: System, r: RowId, x: Around)
    requires Good(s) && CanStep(s, r) && KeysTell(s.l.rows)
    ensures KeysTell(JobStep(s, r, x).l.rows)
  {
    MatchAt(s, r);
    hide Good, KeysTell, JobStep, JobMatches;
    match s.jobs[r] {
      case Hashing(_, _) => HashingTelling(s, r, x);
      case AwaitPreflight(_, _) => PreflightTelling(s, r, x);
      case AwaitCommit(_, _, _) => CommitTelling(s, r, x);
      case AwaitCopy(_, _) => CopyTelling(s, r, x);
      case Started(_) => SendingTelling(s, r, x);
      case Asking(_) => SendingTelling(s, r, x);
      case Storing(_, _) => SendingTelling(s, r, x);
      case _ => StoringTelling(s, r, x);
    }
  }

  lemma HashingTelling(s: System, r: RowId, x: Around)
    requires CanStep(s, r) && s.jobs[r].Hashing? && KeysTell(s.l.rows) && JobMatches(s.l.rows, r, s.jobs[r])
    ensures KeysTell(JobStep(s, r, x).l.rows)
  {
    hide KeysTell, HashedStep;
    HashedTelling(s, r, x);
  }

  lemma PreflightTelling(s: System, r: RowId, x: Around)
    requires CanStep(s, r) && s.jobs[r].AwaitPreflight? && KeysTell(s.l.rows)
    ensures KeysTell(JobStep(s, r, x).l.rows)
  {
    hide KeysTell, MarkRow, PreflightAnswered;
    EndsTelling(s, r);
    var pid := s.jobs[r].pid;
    if pid in s.cloud.procs && s.cloud.procs[pid].pc.Done? { AnsweredTelling(s, r, s.cloud.procs[pid].pc.reply, x); }
  }

  lemma CommitTelling(s: System, r: RowId, x: Around)
    requires CanStep(s, r) && s.jobs[r].AwaitCommit? && KeysTell(s.l.rows)
    ensures KeysTell(JobStep(s, r, x).l.rows)
  {
    hide KeysTell, MarkRow, Retire, IsConflict;
    EndsTelling(s, r);
    var pid := s.jobs[r].pid;
    if pid in s.cloud.procs && s.cloud.procs[pid].pc.Done? && s.cloud.procs[pid].pc.reply.CommitOk? {
      var reply := s.cloud.procs[pid].pc.reply;
      RetireTelling(s, r, s.jobs[r].row.fileId, reply.version, Some(reply.hash), x);
    }
  }

  lemma CopyTelling(s: System, r: RowId, x: Around)
    requires CanStep(s, r) && s.jobs[r].AwaitCopy? && KeysTell(s.l.rows)
    ensures KeysTell(JobStep(s, r, x).l.rows)
  {
    hide KeysTell, MarkRow, UpdateCloudState;
    EndsTelling(s, r);
    var pid := s.jobs[r].pid;
    if pid in s.cloud.procs && s.cloud.procs[pid].pc.Done? && s.cloud.procs[pid].pc.reply.Content? {
      var reply := s.cloud.procs[pid].pc.reply;
      var l := UpdateCloudState(s.l, s.jobs[r].row.fileId, reply.version, reply.current, Synced);
      FilesKeepTelling(s.l, s.jobs[r].row.fileId, Bot, reply.version, reply.current, Synced, Active);
      ProgressKeepsTelling(l, r, InConflict, None, SentReceipt(0, 0), 0, None);
    }
  }

  lemma SendingTelling(s: System, r: RowId, x: Around)
    requires CanStep(s, r) && KeysTell(s.l.rows)
    requires s.jobs[r].Started? || s.jobs[r].Asking? || s.jobs[r].Storing?
    ensures KeysTell(JobStep(s, r, x).l.rows)
  {
    hide KeysTell, MarkRow, Next;
    EndsTelling(s, r);
  }

  lemma StoringTelling(s: System, r: RowId, x: Around)
    requires CanStep(s, r) && KeysTell(s.l.rows)
    requires s.jobs[r].Sent? || s.jobs[r].Reporting? || s.jobs[r].AwaitStored? || s.jobs[r].Committing? || s.jobs[r].Conflicting?
    ensures KeysTell(JobStep(s, r, x).l.rows)
  {
    hide KeysTell, MarkRow, SetUploadReceipt, Next, IsConflict;
    EndsTelling(s, r);
    if s.jobs[r].Sent? { ProgressKeepsTelling(s.l, r, Pending, None, s.jobs[r].receipt, 0, None); }
  }

  lemma EndsTelling(s: System, r: RowId)
    requires KeysTell(s.l.rows)
    ensures forall status, retryAt :: KeysTell(MarkRow(s.l, r, status, retryAt).rows)
  {
    hide KeysTell, MarkRow;
    forall status, retryAt ensures KeysTell(MarkRow(s.l, r, status, retryAt).rows) {
      ProgressKeepsTelling(s.l, r, status, retryAt, SentReceipt(0, 0), 0, None);
    }
  }

  lemma RetireTelling(s: System, r: RowId, f: FileId, version: nat, hash: Option<Hash>, x: Around)
    requires KeysTell(s.l.rows)
    ensures KeysTell(Retire(s, r, f, version, hash, x).l.rows)
  {
    hide KeysTell, MarkSynced, Rebased, UniqueKeysIn;
    ProgressKeepsTelling(s.l, r, Pending, None, SentReceipt(0, 0), version, hash);
    RebaseKeepsTelling(MarkSynced(s.l, r, version, hash).rows, f, version);
  }

  lemma HashedTelling(s: System, r: RowId, x: Around)
    requires r in s.jobs && s.jobs[r].Hashing? && KeysTell(s.l.rows) && JobMatches(s.l.rows, r, s.jobs[r])
    ensures KeysTell(HashedStep(s, r, s.jobs[r].row, s.jobs[r].cached, x).l.rows)
  {
    hide KeysTell, MarkRow, PreparePendingUpload, MarkPendingNoChange, CancelPending;
    EndsTelling(s, r);
    ProgressKeepsTelling(s.l, r, Pending, None, SentReceipt(0, 0), 0, None);
    FilesKeepTelling(s.l, s.jobs[r].row.fileId, Bot, 0, None, Synced, Active);
    if x.content.Some? && s.jobs[r].row.hash.None? { PreparingKeepsTelling(s.l, r, x.content.value); }
  }

  lemma AnsweredTelling(s: System, r: RowId, reply: Reply, x: Around)
    requires r in s.jobs && KeysTell(s.l.rows)
    ensures KeysTell(PreflightAnswered(s, r, s.jobs[r].row, reply, x).l.rows)
  {
    hide KeysTell, MarkRow, CancelPending, Retire, IsConflict;
    var row := s.jobs[r].row;
    EndsTelling(s, r);
    FilesKeepTelling(s.l, row.fileId, Bot, 0, None, Synced, Active);
    match reply
    case Noop(_, v, h) => RetireTelling(s, r, row.fileId, v, Some(h), x);
    case AlreadyCommitted(_, _, v, h) => RetireTelling(s, r, row.fileId, v, h, x);
    case _ =>
  }
}
