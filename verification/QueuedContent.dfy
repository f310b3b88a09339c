/** What becomes of content once it is queued: over every run, with crashes, lost replies, other clients and
    whatever the user does meanwhile. */
module QueuedContent {
  import opened Wrappers
  import opened CloudTables
  import opened CloudHandlers
  import opened CloudHistory
  import opened LocalQueue
  import opened SyncClient

  // ---------------------------------------------------------------- leaving the queue

  /** The content whose row the job of r settles in this step is recorded as synced. */
  ghost predicate Retires(s: System, s': System, r: RowId, x: Around) {
    && r in s.jobs && r in s.l.rows && |s'.retired| == |s.retired| + 1 && s'.retired[..|s.retired|] == s.retired
    && var (f, hash) := s'.retired[|s.retired|];
       f == s.l.rows[r].fileId && (s.l.rows[r].hash == Some(hash) || (s.l.rows[r].hash.None? && x.content == Some(hash)))
  }

  /** The job finds other bytes at the path than those its row was queued for. */
  predicate ChangedMeanwhile(job: Job, x: Around) {
    job.Hashing? && job.row.hash.Some? && x.content.Some? && x.content != job.row.hash
  }

  /** The cloud has the content already, but looking once more the bytes at the path are others. */
  ghost predicate LateMismatch(s: System, job: Job, x: Around) {
    && job.AwaitPreflight? && job.pid in s.cloud.procs && s.cloud.procs[job.pid].pc.Done? && !x.verified
    && (s.cloud.procs[job.pid].pc.reply.Noop? || s.cloud.procs[job.pid].pc.reply.AlreadyCommitted?)
  }

  /** Why row q may leave the queue: its content is in the cloud, or is no longer what is at the path, or
      the user gave it up, alone or with its file. */
  ghost predicate MayLeave(s: System, act: Act, s': System, q: RowId)
    requires q in s.l.rows
  {
    var f := s.l.rows[q].fileId;
    match act
    case Work(r, x) =>
      && r in s.jobs && s.jobs[r].row.fileId == f
      && ((q == r && Retires(s, s', r, x)) || ChangedMeanwhile(s.jobs[r], x) || LateMismatch(s, s.jobs[r], x))
    case CancelRow(r) => r == q && s.l.rows[q].status != Uploading
    case CancelFile(g) => g == f
    case Vanish(g) => g == f && f in s.l.files && s.l.files[f].version > 0
    case Forget(g) => g == f
    case CloudStatus(g, _) => g == f
    case _ => false
  }

  /** What a row that stays keeps: its file, its kind, its place in the queue, and its content once it has one. */
  predicate StaysItself(row: Row, row': Row) {
    row'.fileId == row.fileId && row'.operation == row.operation && row'.created == row.created && (row.hash.Some? ==> row'.hash == row.hash)
  }

  /** In every run a queued row leaves for one of those reasons only, and otherwise keeps its content. */
  lemma QueuedContentIsKept(user: UserId, acts: seq<Act>, act: Act, q: RowId)
    requires q in Play(Begin(user), acts).l.rows
    ensures var s := Play(Begin(user), acts); var s' := Play(Begin(user), acts + [act]);
      if q in s'.l.rows then StaysItself(s.l.rows[q], s'.l.rows[q]) else MayLeave(s, act, s', q)
  {
    hide Good, Do, MayLeave, StaysItself;
    Played(user, acts);
    OneMore(Begin(user), acts, act);
    KeptByAct(Play(Begin(user), acts), act, q);
  }

  lemma OneMore(s: System, acts: seq<Act>, act: Act)
    ensures Play(s, acts + [act]) == Do(Play(s, acts), act)
  {
    assert (acts + [act])[..|acts + [act]| - 1] == acts;
  }

  ghost predicate Kept(s: System, act: Act, s': System, q: RowId)
    requires q in s.l.rows
  {
    if q in s'.l.rows then StaysItself(s.l.rows[q], s'.l.rows[q]) else MayLeave(s, act, s', q)
  }

  lemma KeptByAct(s: System, act: Act, q: RowId)
    requires Good(s) && q in s.l.rows
    ensures Kept(s, act, Do(s, act), q)
  {
    hide Good, JobStep, Kept, Do;
    match act
    case Work(r, x) => KeptByWork(s, r, x, q);
    case Edit(_, _, _, _, _) => KeptByEdit(s, act, q);
    case Wait(_, _, _, _, _, _, _) => KeptByWait(s, act, q);
    case _ => KeptOtherwise(s, act, q);
  }

  lemma KeptByWork(s: System, r: RowId, x: Around, q: RowId)
    requires Good(s) && q in s.l.rows
    ensures Kept(s, Work(r, x), Do(s, Work(r, x)), q)
  {
    hide Good, JobStep, Kept;
    if CanStep(s, r) { KeptByJob(s, r, x, q); } else { KeptIdle(s, Work(r, x), q); }
  }

  lemma KeptIdle(s: System, act: Act, q: RowId)
    requires q in s.l.rows
    ensures Kept(s, act, s, q)
  {
  }

  lemma KeptByEdit(s: System, act: Act, q: RowId)
    requires Good(s) && q in s.l.rows && act.Edit?
    ensures Kept(s, act, Do(s, act), q)
  {
    hide CloudSide, JobsMatch, Next, JobStep, UpsertSkipped, KeyTaken, FileAtHand, WithFileStatus;
    FilesAside();
  }

  lemma KeptByWait(s: System, act: Act, q: RowId)
    requires Good(s) && q in s.l.rows && act.Wait?
    ensures Kept(s, act, Do(s, act), q)
  {
    hide CloudSide, JobsMatch, Next, JobStep, KeyTaken, WithFileStatus;
    FilesAside();
  }

  lemma FilesAside()
    ensures forall l: Local, f, status :: WithFileStatus(l, f, status).rows == l.rows
  {
  }

  lemma KeptOtherwise(s: System, act: Act, q: RowId)
    requires q in s.l.rows && !act.Work? && !act.Edit? && !act.Wait?
    ensures Kept(s, act, Do(s, act), q)
  {
    hide Next, JobStep, WithFileStatus, Ready;
    FilesAside();
  }

  lemma KeptByJob(s: System, r: RowId, x: Around, q: RowId)
    requires Good(s) && q in s.l.rows && CanStep(s, r)
    ensures Kept(s, Work(r, x), JobStep(s, r, x), q)
  {
    hide Good, Kept, JobStep, JobMatches;
    MatchAt(s, r);
    match s.jobs[r] {
      case Hashing(_, _) => KeptByHashing(s, r, x, q);
      case AwaitPreflight(_, _) => KeptByPreflight(s, r, x, q);
      case AwaitStored(_, _, _) => KeptByStored(s, r, x, q);
      case AwaitCommit(_, _, _) => KeptByCommit(s, r, x, q);
      case AwaitCopy(_, _) => KeptByCopy(s, r, x, q);
      case Started(_) => KeptBySending(s, r, x, q);
      case Asking(_) => KeptBySending(s, r, x, q);
      case Storing(_, _) => KeptBySending(s, r, x, q);
      case _ => KeptByReporting(s, r, x, q);
    }
  }

  lemma KeptByHashing(s: System, r: RowId, x: Around, q: RowId)
    requires q in s.l.rows && CanStep(s, r) && s.jobs[r].Hashing? && JobMatches(s.l.rows, r, s.jobs[r])
    ensures Kept(s, Work(r, x), JobStep(s, r, x), q)
  {
    hide PreflightAnswered, StoreStep, Call, Next, UpdateCloudState, OnError, Retire;
  }

  lemma KeptByRetiring(s: System, r: RowId, version: nat, hash: Option<Hash>, x: Around, q: RowId)
    requires q in s.l.rows && r in s.jobs && s.jobs[r].row.hash.Some? && JobMatches(s.l.rows, r, s.jobs[r])
    ensures Kept(s, Work(r, x), Retire(s, r, s.jobs[r].row.fileId, version, hash, x), q)
  {
    hide UniqueKeysIn;
  }

  lemma KeptByMark(s: System, r: RowId, status: SyncStatus, retryAt: Option<nat>, x: Around, q: RowId)
    requires q in s.l.rows
    ensures Kept(s, Work(r, x), EndJob(s.(l := MarkRow(s.l, r, status, retryAt)), r), q)
  {
  }

  lemma KeptByPreflight(s: System, r: RowId, x: Around, q: RowId)
    requires q in s.l.rows && CanStep(s, r) && s.jobs[r].AwaitPreflight? && JobMatches(s.l.rows, r, s.jobs[r])
    ensures Kept(s, Work(r, x), JobStep(s, r, x), q)
  {
    hide Kept, MarkRow, Retire, IsConflict, CancelPending, HashedStep, StoreStep, Call, Next, UpdateCloudState, JobMatches;
    KeptByMark(s, r, RetryWait, Some(x.retryAt), x, q);
    KeptByMark(s, r, InError, None, x, q);
    KeptInJob(s, r, x, q);
    var pid := s.jobs[r].pid;
    if pid in s.cloud.procs && s.cloud.procs[pid].pc.Done? {
      match s.cloud.procs[pid].pc.reply {
        case Noop(_, v, h) => KeptByRetiring(s, r, v, Some(h), x, q); KeptByMismatch(s, r, x, q);
        case AlreadyCommitted(_, _, v, h) => KeptByRetiring(s, r, v, h, x, q); KeptByMismatch(s, r, x, q);
        case _ =>
      }
    }
  }

  lemma KeptInJob(s: System, r: RowId, x: Around, q: RowId)
    requires q in s.l.rows
    ensures forall job: Job :: Kept(s, Work(r, x), WithJob(s, r, job), q)
    ensures Kept(s, Work(r, x), s, q)
  {
  }

  lemma KeptByMismatch(s: System, r: RowId, x: Around, q: RowId)
    requires q in s.l.rows && r in s.jobs && (x.verified || LateMismatch(s, s.jobs[r], x))
    ensures x.verified || Kept(s, Work(r, x), EndJob(s.(l := CancelPending(s.l, s.jobs[r].row.fileId)), r), q)
  {
  }

  lemma KeptByStored(s: System, r: RowId, x: Around, q: RowId)
    requires q in s.l.rows && CanStep(s, r) && s.jobs[r].AwaitStored?
    ensures Kept(s, Work(r, x), JobStep(s, r, x), q)
  {
    hide Kept, MarkRow, Retire, IsConflict, CancelPending, HashedStep, PreflightAnswered, StoreStep, Call, Next, UpdateCloudState;
    KeptByMark(s, r, RetryWait, Some(x.retryAt), x, q);
    KeptByMark(s, r, InError, None, x, q);
    KeptInJob(s, r, x, q);
  }

  lemma KeptByCommit(s: System, r: RowId, x: Around, q: RowId)
    requires q in s.l.rows && CanStep(s, r) && s.jobs[r].AwaitCommit? && JobMatches(s.l.rows, r, s.jobs[r])
    ensures Kept(s, Work(r, x), JobStep(s, r, x), q)
  {
    hide Kept, MarkRow, Retire, IsConflict, CancelPending, HashedStep, PreflightAnswered, StoreStep, Call, Next, UpdateCloudState, JobMatches;
    KeptByMark(s, r, RetryWait, Some(x.retryAt), x, q);
    KeptByMark(s, r, InError, None, x, q);
    KeptInJob(s, r, x, q);
    var pid := s.jobs[r].pid;
    if pid in s.cloud.procs && s.cloud.procs[pid].pc.Done? && s.cloud.procs[pid].pc.reply.CommitOk? {
      KeptByRetiring(s, r, s.cloud.procs[pid].pc.reply.version, Some(s.cloud.procs[pid].pc.reply.hash), x, q);
    }
  }

  lemma KeptByCopy(s: System, r: RowId, x: Around, q: RowId)
    requires q in s.l.rows && CanStep(s, r) && s.jobs[r].AwaitCopy?
    ensures Kept(s, Work(r, x), JobStep(s, r, x), q)
  {
    hide HashedStep, PreflightAnswered, StoreStep, Call, Next, OnError, Retire, CancelPending;
  }

  lemma KeptBySending(s: System, r: RowId, x: Around, q: RowId)
    requires q in s.l.rows && CanStep(s, r) && (s.jobs[r].Started? || s.jobs[r].Asking? || s.jobs[r].Storing?)
    ensures Kept(s, Work(r, x), JobStep(s, r, x), q)
  {
    hide HashedStep, PreflightAnswered, Next, OnError, Retire, CancelPending, PreflightOf;
  }

  lemma KeptByReporting(s: System, r: RowId, x: Around, q: RowId)
    requires q in s.l.rows && CanStep(s, r) && (s.jobs[r].Sent? || s.jobs[r].Reporting? || s.jobs[r].Committing? || s.jobs[r].Conflicting?)
    ensures Kept(s, Work(r, x), JobStep(s, r, x), q)
  {
    hide HashedStep, PreflightAnswered, Next, OnError, Retire, CancelPending, StoreStep;
  }

  // ---------------------------------------------------------------- moving through the queue

  ghost predicate Told(s: System, job: Job, code: ErrorCode) {
    && (job.AwaitPreflight? || job.AwaitStored? || job.AwaitCommit?) && job.pid in s.cloud.procs
    && s.cloud.procs[job.pid].pc == Done(Failed(code))
  }

  predicate Final(code: ErrorCode, x: Around) {
    code in {FileNotFound, IntentNotFound, VersionNotAvailable} || (code == Refused && !x.locked)
  }

  /** What no retry would mend: the bytes are gone, or the worker says no for good. */
  ghost predicate Stops(s: System, job: Job, x: Around) {
    || (x.content.None? && (job.Hashing? || (job.Storing? && job.row.receipt.None? && job.row.backend == Bot)))
    || (!x.retryable && exists code :: Told(s, job, code) && Final(code, x))
  }

  /** The answers that make a conflict: the cloud has moved on, the lease is another's, or the intent cannot be
      used any more. */
  ghost predicate TurnsToConflict(s: System, job: Job, x: Around) {
    || (job.AwaitPreflight? && job.pid in s.cloud.procs && s.cloud.procs[job.pid].pc.Done? && s.cloud.procs[job.pid].pc.reply.Conflict?)
    || (x.locked && Told(s, job, Refused))
    || exists code :: Told(s, job, code) && code in {FileNotActive, WorkspaceMismatch, KeyReused, IntentAbandoned, NotUploadable,
         BackendMismatch, HashMismatch, NotCommittable, BaseVersionConflict}
  }

  /** Why a row's status may become `to`. */
  ghost predicate MayBecome(s: System, act: Act, q: RowId, to: SyncStatus)
    requires q in s.l.rows
  {
    var from := s.l.rows[q].status;
    match act
    case Dispatch(r, now) => r == q && to == Uploading && Ready(s.l.rows[q], now) && s.l.rows[q].operation == Upsert
    case Edit(a, waiting, _, _, _) => waiting == Some(q) && from == RetryWait && s.l.rows[q].hash.None? && to == Pending
    case Wait(f, _, _, _, _, _, _) => f == s.l.rows[q].fileId && from == Pending && to == RetryWait
    case Requeue(r) => r == q && from != Uploading && to == Pending
    case Crash => from == Uploading && to == Pending
    case Work(r, x) =>
      && r == q && r in s.jobs && from == Uploading
      && (to == RetryWait || (to == InConflict && OnConflict(s.jobs[r])) || (to == InError && Stops(s, s.jobs[r], x)))
    case _ => false
  }

  ghost predicate Moved(s: System, act: Act, s': System, q: RowId)
    requires q in s.l.rows
  {
    q in s'.l.rows && s'.l.rows[q].status != s.l.rows[q].status ==> MayBecome(s, act, q, s'.l.rows[q].status)
  }

  /** In every run a row is taken up, put back, stopped or put in conflict for one of those reasons only. */
  lemma StatusHasAReason(user: UserId, acts: seq<Act>, act: Act, q: RowId)
    requires q in Play(Begin(user), acts).l.rows
    ensures Moved(Play(Begin(user), acts), act, Play(Begin(user), acts + [act]), q)
  {
    hide Good, Do, Moved;
    Played(user, acts);
    OneMore(Begin(user), acts, act);
    MovedByAct(Play(Begin(user), acts), act, q);
  }

  lemma MovedByAct(s: System, act: Act, q: RowId)
    requires Good(s) && q in s.l.rows
    ensures Moved(s, act, Do(s, act), q)
  {
    hide Good, JobStep, Moved, Do;
    match act
    case Work(r, x) => MovedByWork(s, r, x, q);
    case Edit(_, _, _, _, _) => MovedByEdit(s, act, q);
    case Wait(_, _, _, _, _, _, _) => MovedByWait(s, act, q);
    case _ => MovedOtherwise(s, act, q);
  }

  lemma MovedByEdit(s: System, act: Act, q: RowId)
    requires Good(s) && q in s.l.rows && act.Edit?
    ensures Moved(s, act, Do(s, act), q)
  {
    hide CloudSide, JobsMatch, Next, JobStep, UpsertSkipped, KeyTaken, FileAtHand, WithFileStatus;
    FilesAside();
  }

  lemma MovedByWait(s: System, act: Act, q: RowId)
    requires Good(s) && q in s.l.rows && act.Wait?
    ensures Moved(s, act, Do(s, act), q)
  {
    hide CloudSide, JobsMatch, Next, JobStep, KeyTaken, WithFileStatus;
    FilesAside();
  }

  lemma MovedOtherwise(s: System, act: Act, q: RowId)
    requires q in s.l.rows && !act.Work? && !act.Edit? && !act.Wait?
    ensures Moved(s, act, Do(s, act), q)
  {
    hide Next, JobStep, WithFileStatus, Ready;
    FilesAside();
  }

  lemma MovedByWork(s: System, r: RowId, x: Around, q: RowId)
    requires Good(s) && q in s.l.rows
    ensures Moved(s, Work(r, x), Do(s, Work(r, x)), q)
  {
    hide Good, JobStep, Moved, JobMatches;
    StillThere(s, r, x, q);
    if CanStep(s, r) {
      MatchAt(s, r);
      if s.jobs[r].AwaitPreflight? || s.jobs[r].AwaitStored? || s.jobs[r].AwaitCommit? { MovedByAnswer(s, r, x, q); } else { MovedInJob(s, r, x, q); }
    }
  }

  lemma StillThere(s: System, r: RowId, x: Around, q: RowId)
    requires q in s.l.rows
    ensures Moved(s, Work(r, x), s, q)
  {
  }

  lemma MovedByMark(s: System, r: RowId, status: SyncStatus, retryAt: Option<nat>, x: Around, q: RowId)
    requires q in s.l.rows && r in s.jobs && JobMatches(s.l.rows, r, s.jobs[r])
    requires status == RetryWait || (status == InError && Stops(s, s.jobs[r], x)) || (status == InConflict && OnConflict(s.jobs[r]))
    ensures Moved(s, Work(r, x), EndJob(s.(l := MarkRow(s.l, r, status, retryAt)), r), q)
  {
    hide Stops;
  }

  lemma MovedOut(s: System, r: RowId, version: nat, hash: Option<Hash>, x: Around, q: RowId)
    requires q in s.l.rows
    ensures Moved(s, Work(r, x), Retire(s, r, s.l.rows[q].fileId, version, hash, x), q)
    ensures r in s.jobs ==> Moved(s, Work(r, x), Retire(s, r, s.jobs[r].row.fileId, version, hash, x), q)
    ensures forall f :: Moved(s, Work(r, x), EndJob(s.(l := CancelPending(s.l, f)), r), q)
    ensures forall job: Job :: Moved(s, Work(r, x), WithJob(s, r, job), q)
  {
    hide UniqueKeysIn;
  }

  lemma MovedByAnswer(s: System, r: RowId, x: Around, q: RowId)
    requires q in s.l.rows && CanStep(s, r) && JobMatches(s.l.rows, r, s.jobs[r])
    requires s.jobs[r].AwaitPreflight? || s.jobs[r].AwaitStored? || s.jobs[r].AwaitCommit?
    ensures Moved(s, Work(r, x), JobStep(s, r, x), q)
  {
    hide Moved, MarkRow, Retire, CancelPending, HashedStep, StoreStep, Call, Next, UpdateCloudState, JobMatches, Stops;
    MovedByMark(s, r, RetryWait, Some(x.retryAt), x, q);
    StillThere(s, r, x, q);
    MovedOut(s, r, 0, None, x, q);
    var pid := s.jobs[r].pid;
    if pid in s.cloud.procs && s.cloud.procs[pid].pc.Done? {
      var reply := s.cloud.procs[pid].pc.reply;
      match reply {
        case Noop(_, v, h) => MovedOut(s, r, v, Some(h), x, q);
        case AlreadyCommitted(_, _, v, h) => MovedOut(s, r, v, h, x, q);
        case CommitOk(_, v, h) => MovedOut(s, r, v, Some(h), x, q);
        case Failed(code) =>
          if !IsConflict(code) && code != PersistFailed && !x.retryable && !(code.Refused? && x.locked) {
            FinalStops(s, s.jobs[r], code, x);
            MovedByMark(s, r, InError, None, x, q);
          }
        case _ =>
      }
    }
  }

  lemma FinalStops(s: System, job: Job, code: ErrorCode, x: Around)
    requires Told(s, job, code) && !IsConflict(code) && code != PersistFailed && !x.retryable && !(code.Refused? && x.locked)
    ensures Stops(s, job, x)
  {
  }

  lemma MovedInJob(s: System, r: RowId, x: Around, q: RowId)
    requires q in s.l.rows && CanStep(s, r) && JobMatches(s.l.rows, r, s.jobs[r])
    requires !s.jobs[r].AwaitPreflight? && !s.jobs[r].AwaitStored? && !s.jobs[r].AwaitCommit?
    ensures Moved(s, Work(r, x), JobStep(s, r, x), q)
  {
    hide PreflightAnswered, OnError, Retire, Next, PreflightOf, Told;
  }

  /** And a job turns to a conflict only on one of the answers that make one. */
  lemma ConflictHasAReason(s: System, act: Act, r: RowId)
    requires r in s.jobs && !OnConflict(s.jobs[r]) && r in Do(s, act).jobs && OnConflict(Do(s, act).jobs[r])
    ensures act.Work? && act.r == r && !act.x.lost && TurnsToConflict(s, s.jobs[r], act.x)
  {
    hide Next, JobStep, TurnsToConflict;
    JobGoesOn(s, act, r);
    TurnsByStep(s, r, act.x);
  }

  lemma TurnsByStep(s: System, r: RowId, x: Around)
    requires CanStep(s, r) && !OnConflict(s.jobs[r]) && r in JobStep(s, r, x).jobs && OnConflict(JobStep(s, r, x).jobs[r])
    ensures !x.lost && TurnsToConflict(s, s.jobs[r], x)
  {
    hide Next, MarkRow, MarkSynced, Rebased, UniqueKeysIn, CancelPending, UpdateCloudState, PreflightOf;
    var job := s.jobs[r];
    if (job.AwaitPreflight? || job.AwaitStored? || job.AwaitCommit?) && job.pid in s.cloud.procs && s.cloud.procs[job.pid].pc.Done?
      && s.cloud.procs[job.pid].pc.reply.Failed?
    {
      assert Told(s, job, s.cloud.procs[job.pid].pc.reply.code);
    }
  }

  // ---------------------------------------------------------------- what each finding and answer leads to

  predicate AwaitsAnswer(job: Job) {
    job.AwaitPreflight? || job.AwaitStored? || job.AwaitCommit?
  }

  /** The cloud holds the content, or has just taken it. */
  ghost predicate Settles(s: System, job: Job, x: Around) {
    && AwaitsAnswer(job) && job.pid in s.cloud.procs && s.cloud.procs[job.pid].pc.Done?
    && var reply := s.cloud.procs[job.pid].pc.reply;
       (job.AwaitPreflight? && x.verified && (reply.Noop? || reply.AlreadyCommitted?)) || (job.AwaitCommit? && reply.CommitOk?)
  }

  /** Everything queued for the file is given up, and the job is over. */
  predicate GivenUp(s: System, s': System, r: RowId, f: FileId) {
    && r !in s'.jobs && s'.retired == s.retired
    && (forall q | q in s.l.rows && s.l.rows[q].fileId != f :: q in s'.l.rows && s'.l.rows[q] == s.l.rows[q])
    && forall q | q in s'.l.rows :: q in s.l.rows && s.l.rows[q].fileId != f
  }

  predicate EndsAs(s': System, r: RowId, status: SyncStatus) {
    r !in s'.jobs && (r in s'.l.rows ==> s'.l.rows[r].status == status)
  }

  /** The other way round: each finding at the path and each answer of the worker does lead where it should, whether or
      not the row is still queued. A lost answer leads to another try. */
  lemma AnswersDecide(s: System, r: RowId, x: Around)
    requires CanStep(s, r) && (AwaitsAnswer(s.jobs[r]) || s.jobs[r].Hashing?)
    ensures var job := s.jobs[r]; var s' := JobStep(s, r, x);
      && (x.lost && AwaitsAnswer(job) ==> EndsAs(s', r, RetryWait))
      && (!x.lost && TurnsToConflict(s, job, x) && !Stops(s, job, x) ==> r in s'.jobs && OnConflict(s'.jobs[r]) && s'.l == s.l)
      && (Stops(s, job, x) && (x.lost ==> job.Hashing?) ==> EndsAs(s', r, InError))
      && (ChangedMeanwhile(job, x) || (LateMismatch(s, job, x) && !x.lost) ==> GivenUp(s, s', r, job.row.fileId))
      && (Settles(s, job, x) && !x.lost ==> r !in s'.jobs && r !in s'.l.rows)
  {
    hide JobStep, TurnsToConflict, Stops, LateMismatch, Settles, GivenUp;
    if s.jobs[r].Hashing? {
      HashingDecides(s, r, x);
    } else if s.jobs[r].AwaitPreflight? {
      PreflightDecides(s, r, x);
    } else {
      StoringDecides(s, r, x);
    }
  }

  ghost predicate Decided(s: System, r: RowId, x: Around, s': System)
    requires r in s.jobs
  {
    var job := s.jobs[r];
    && (x.lost && AwaitsAnswer(job) ==> EndsAs(s', r, RetryWait))
    && (!x.lost && TurnsToConflict(s, job, x) && !Stops(s, job, x) ==> r in s'.jobs && OnConflict(s'.jobs[r]) && s'.l == s.l)
    && (Stops(s, job, x) && (x.lost ==> job.Hashing?) ==> EndsAs(s', r, InError))
    && (ChangedMeanwhile(job, x) || (LateMismatch(s, job, x) && !x.lost) ==> GivenUp(s, s', r, job.row.fileId))
    && (Settles(s, job, x) && !x.lost ==> r !in s'.jobs && r !in s'.l.rows)
  }

  lemma HashingDecides(s: System, r: RowId, x: Around)
    requires CanStep(s, r) && s.jobs[r].Hashing?
    ensures Decided(s, r, x, JobStep(s, r, x))
  {
    hide PreflightAnswered, StoreStep, Call, Next, OnError, Retire, UpdateCloudState;
  }

  lemma PreflightDecides(s: System, r: RowId, x: Around)
    requires CanStep(s, r) && s.jobs[r].AwaitPreflight?
    ensures Decided(s, r, x, JobStep(s, r, x))
  {
    hide HashedStep, StoreStep, Call, Next, UpdateCloudState, UniqueKeysIn;
  }

  lemma StoringDecides(s: System, r: RowId, x: Around)
    requires CanStep(s, r) && (s.jobs[r].AwaitStored? || s.jobs[r].AwaitCommit?)
    ensures Decided(s, r, x, JobStep(s, r, x))
  {
    hide HashedStep, PreflightAnswered, StoreStep, Call, Next, UpdateCloudState, UniqueKeysIn;
  }

  /** The row as it builds on version v of file f. */
  function OnVersion(q: RowId, row: Row, f: FileId, v: nat): Row {
    if row.fileId == f && row.status in {Pending, RetryWait}
    then row.(base := v, key := Key(f, v, row.hash, if row.hash.Some? then Plain else WaitingRow(q))) else row
  }

  predicate KeysStayApart(rows: map<RowId, Row>, r: RowId, f: FileId, v: nat) {
    forall p, q | p in rows.Keys && q in rows.Keys && p != q && p != r && q != r :: OnVersion(p, rows[p], f, v).key != OnVersion(q, rows[q], f, v).key
  }

  function SettledAt(s: System, job: Job): nat
    requires (job.AwaitPreflight? || job.AwaitCommit?) && job.pid in s.cloud.procs && s.cloud.procs[job.pid].pc.Done?
    requires var reply := s.cloud.procs[job.pid].pc.reply; reply.Noop? || reply.AlreadyCommitted? || reply.CommitOk?
  {
    s.cloud.procs[job.pid].pc.reply.version
  }

  /** What was queued for the file after the row that is settled now builds on the version it is settled at, so that
      a client does not conflict with itself; unless two keys would clash, and then nothing is rebased. */
  lemma LaterEditsBuildOnIt(s: System, r: RowId, x: Around)
    requires CanStep(s, r) && Settles(s, s.jobs[r], x) && !x.lost && r in s.l.rows && s.l.rows[r].fileId == s.jobs[r].row.fileId
    ensures var (f, v, rows') := (s.jobs[r].row.fileId, SettledAt(s, s.jobs[r]), JobStep(s, r, x).l.rows);
      && rows'.Keys == s.l.rows.Keys - {r}
      && (x.rebase && KeysStayApart(s.l.rows, r, f, v) ==> forall q | q in rows' :: rows'[q] == OnVersion(q, s.l.rows[q], f, v))
      && (!x.rebase || !KeysStayApart(s.l.rows, r, f, v) ==> forall q | q in rows' :: rows'[q] == s.l.rows[q])
    ensures var (f, v) := (s.jobs[r].row.fileId, SettledAt(s, s.jobs[r]));
      f in s.l.files ==> f in JobStep(s, r, x).l.files && JobStep(s, r, x).l.files[f].version == v && JobStep(s, r, x).l.files[f].status == Synced
  {
    hide HashedStep, StoreStep, Call, Next, UpdateCloudState, OnError;
    var reply := s.cloud.procs[s.jobs[r].pid].pc.reply;
    var hash := if reply.AlreadyCommitted? then reply.current else Some(reply.hash);
    assert JobStep(s, r, x) == Retire(s, r, s.jobs[r].row.fileId, reply.version, hash, x);
    RetireRebases(s, r, s.jobs[r].row.fileId, reply.version, hash, x);
  }

  lemma RetireRebases(s: System, r: RowId, f: FileId, v: nat, hash: Option<Hash>, x: Around)
    requires r in s.l.rows && s.l.rows[r].fileId == f
    ensures var rows' := Retire(s, r, f, v, hash, x).l.rows;
      && rows'.Keys == s.l.rows.Keys - {r}
      && (x.rebase && KeysStayApart(s.l.rows, r, f, v) ==> forall q | q in rows' :: rows'[q] == OnVersion(q, s.l.rows[q], f, v))
      && (!x.rebase || !KeysStayApart(s.l.rows, r, f, v) ==> forall q | q in rows' :: rows'[q] == s.l.rows[q])
    ensures var files' := Retire(s, r, f, v, hash, x).l.files;
      f in s.l.files ==> f in files' && files'[f] == s.l.files[f].(version := v, hash := hash, status := Synced)
  {
    var rebased := Rebased(MarkSynced(s.l, r, v, hash).rows, f, v);
    assert forall q | q in rebased :: rebased[q] == OnVersion(q, s.l.rows[q], f, v);
    assert UniqueKeysIn(rebased) <==> KeysStayApart(s.l.rows, r, f, v);
  }

  /** A job asks the cloud to take only what it has just found at the path, and what it asks is its row's
      file, content, base, key and channel. */
  lemma AsksForWhatIsThere(s: System, r: RowId, x: Around)
    requires CanStep(s, r) && (s.jobs[r].Hashing? || s.jobs[r].Asking?) && r in JobStep(s, r, x).jobs
    ensures s.jobs[r].Hashing? ==> JobStep(s, r, x).jobs[r].Asking? && x.content.Some? && JobStep(s, r, x).jobs[r].row.hash == x.content
    ensures s.jobs[r].Asking? ==>
      var (row, procs) := (s.jobs[r].row, JobStep(s, r, x).cloud.procs);
      && x.pid in procs && procs[x.pid].req.Preflight?
      && var q := procs[x.pid].req.q;
         && q.user == s.user && q.fileId == Some(row.fileId) && Some(q.hash) == row.hash && q.base == row.base && q.key == row.key
         && q.backend == row.backend && q.restoredFrom == row.restoredFrom
  {
    hide PreflightAnswered, StoreStep, OnError, Retire, UpdateCloudState;
  }

  // ---------------------------------------------------------------- a conflict keeps the row

  /** The job is making the copy, or waiting for the cloud's version. */
  predicate OnConflict(job: Job) {
    job.Conflicting? || job.AwaitCopy?
  }

  ghost predicate AnsweredConflict(s: System, r: RowId) {
    && r in s.jobs && s.jobs[r].AwaitPreflight? && s.jobs[r].pid in s.cloud.procs
    && s.cloud.procs[s.jobs[r].pid].pc.Done? && s.cloud.procs[s.jobs[r].pid].pc.reply.Conflict?
  }

  /** Nobody but the job itself, or a crash, ends it. */
  lemma JobGoesOn(s: System, act: Act, r: RowId)
    requires r in s.jobs
    ensures r in Do(s, act).jobs && !(act.Work? && act.r == r) ==> Do(s, act).jobs[r] == s.jobs[r]
    ensures r !in Do(s, act).jobs ==> act.Crash? || (act.Work? && act.r == r && CanStep(s, r))
  {
    hide Next, JobStep;
    if act.Work? && CanStep(s, act.r) { OthersJobs(s, act.r, act.x); }
  }

  lemma OthersJobs(s: System, r: RowId, x: Around)
    requires CanStep(s, r)
    ensures forall q | q in s.jobs && q != r :: q in JobStep(s, r, x).jobs && JobStep(s, r, x).jobs[q] == s.jobs[q]
  {
    hide Next, MarkRow, MarkSynced, Rebased, CancelPending, UpdateCloudState, PreflightOf, IsConflict, UniqueKeysIn;
  }

  lemma ConflictStep(s: System, r: RowId, x: Around)
    requires CanStep(s, r) && OnConflict(s.jobs[r]) && x.content.Some?
    ensures var s' := JobStep(s, r, x);
      if r in s'.jobs then OnConflict(s'.jobs[r]) && s'.l == s.l
      else r in s.l.rows ==>
        && r in s'.l.rows && s'.l.rows[r] == s.l.rows[r].(status := InConflict)
        && (s.l.rows[r].fileId in s'.l.files ==> s'.l.files[s.l.rows[r].fileId].status == InConflict)
  {
    hide Next, HashedStep, PreflightAnswered, StoreStep, Call, OnError, Retire;
  }

  lemma ConflictIsRead(s: System, r: RowId, x: Around)
    requires CanStep(s, r) && AnsweredConflict(s, r) && !x.lost
    ensures JobStep(s, r, x).l == s.l && r in JobStep(s, r, x).jobs && OnConflict(JobStep(s, r, x).jobs[r])
  {
    hide Next, HashedStep, StoreStep, Call, OnError, Retire;
  }

  /** The states a run goes through after s. */
  ghost predicate InJobUntilLast(s: System, more: seq<Act>, r: RowId) {
    && more != [] && r !in Play(s, more).jobs && !more[|more| - 1].Crash?
    && (forall k | 0 <= k < |more| :: r in Play(s, more[..k]).jobs && r in Play(s, more[..k]).l.rows)
    && (forall k, x | 0 <= k < |more| && more[k] == Work(r, x) :: x.content.Some?)
  }

  lemma {:induction false} OnConflictUntil(s: System, more: seq<Act>, r: RowId, n: nat)
    requires r in s.jobs && OnConflict(s.jobs[r]) && InJobUntilLast(s, more, r) && n < |more|
    ensures r in Play(s, more[..n]).jobs && OnConflict(Play(s, more[..n]).jobs[r])
  {
    hide Do, JobStep, OnConflict;
    if n == 0 {
      assert more[..0] == [];
    } else {
      OnConflictUntil(s, more, r, n - 1);
      var before := Play(s, more[..n - 1]);
      var act := more[n - 1];
      assert more[..n] == more[..n - 1] + [act];
      OneMore(s, more[..n - 1], act);
      assert r in Play(s, more[..n]).jobs;
      JobGoesOn(before, act, r);
      if act.Work? && act.r == r { WorkOnConflict(before, r, act.x); }
    }
  }

  lemma WorkOnConflict(s: System, r: RowId, x: Around)
    requires r in s.jobs && OnConflict(s.jobs[r]) && x.content.Some? && r in Do(s, Work(r, x)).jobs
    ensures OnConflict(Do(s, Work(r, x)).jobs[r])
  {
    hide JobStep;
    if CanStep(s, r) { ConflictStep(s, r, x); }
  }

  /** A job whose preflight is answered "conflict" ends with its row still queued, its content unchanged, and
      both row and file in conflict, whatever anybody does in between: unless the client crashes, the
      user removes the row, or the local file is gone when it is to be copied. */
  lemma ConflictKeepsTheRow(user: UserId, acts: seq<Act>, r: RowId, x: Around, more: seq<Act>)
    requires AnsweredConflict(Play(Begin(user), acts), r) && !x.lost
    requires InJobUntilLast(Play(Begin(user), acts + [Work(r, x)]), more, r)
    ensures var s := Play(Begin(user), acts); var s' := Play(Play(Begin(user), acts + [Work(r, x)]), more);
      && r in s'.l.rows && s'.l.rows[r].status == InConflict && s'.l.rows[r].hash == s.jobs[r].row.hash
      && (s'.l.rows[r].fileId in s'.l.files ==> s'.l.files[s'.l.rows[r].fileId].status == InConflict)
  {
    hide Do, JobStep, Good, AnsweredConflict, OnConflict, InJobUntilLast, Play;
    var s0 := Play(Begin(user), acts);
    Played(user, acts);
    OneMore(Begin(user), acts, Work(r, x));
    var s := Play(Begin(user), acts + [Work(r, x)]);
    ReadConflict(s0, r, x);
    var n, y := LastOfJob(s, more, r);
    var last := Play(s, more[..n]);
    EndOfConflict(last, r, y);
    PlayedOn(user, acts + [Work(r, x)], more[..n]);
    SameContentInJob(last, r);
    JobRowStays(s, more, r, n);
  }

  /** The act that ends the job is a step of its own. */
  lemma LastOfJob(s: System, more: seq<Act>, r: RowId) returns (n: nat, y: Around)
    requires r in s.jobs && OnConflict(s.jobs[r]) && InJobUntilLast(s, more, r)
    ensures n + 1 == |more| && Play(s, more) == Do(Play(s, more[..n]), Work(r, y)) && y.content.Some?
    ensures var last := Play(s, more[..n]);
      r in last.jobs && r in last.l.rows && OnConflict(last.jobs[r]) && CanStep(last, r) && r !in Do(last, Work(r, y)).jobs
  {
    hide Do, JobStep, OnConflict;
    n := |more| - 1;
    OnConflictUntil(s, more, r, n);
    assert more == more[..n] + [more[n]];
    OneMore(s, more[..n], more[n]);
    JobGoesOn(Play(s, more[..n]), more[n], r);
    y := more[n].x;
  }

  lemma ReadConflict(s: System, r: RowId, x: Around)
    requires Good(s) && AnsweredConflict(s, r) && !x.lost
    ensures var s' := Do(s, Work(r, x)); r in s'.jobs && OnConflict(s'.jobs[r]) && s'.jobs[r].row == s.jobs[r].row
  {
    hide Good, JobStep;
    Knows(s, r);
    ConflictIsRead(s, r, x);
    ConflictRow(s, r, x);
  }

  lemma ConflictRow(s: System, r: RowId, x: Around)
    requires CanStep(s, r) && (AnsweredConflict(s, r) || OnConflict(s.jobs[r])) && r in JobStep(s, r, x).jobs
    ensures JobStep(s, r, x).jobs[r].row == s.jobs[r].row
  {
    hide Next, HashedStep, StoreStep, Call, OnError, Retire;
  }

  lemma EndOfConflict(s: System, r: RowId, x: Around)
    requires r in s.jobs && r in s.l.rows && OnConflict(s.jobs[r]) && CanStep(s, r) && x.content.Some? && r !in Do(s, Work(r, x)).jobs
    ensures var s' := Do(s, Work(r, x));
      && r in s'.l.rows && s'.l.rows[r] == s.l.rows[r].(status := InConflict)
      && (s.l.rows[r].fileId in s'.l.files ==> s'.l.files[s.l.rows[r].fileId].status == InConflict)
  {
    hide JobStep;
    ConflictStep(s, r, x);
  }

  lemma PlayedOn(user: UserId, acts: seq<Act>, more: seq<Act>)
    ensures Good(Play(Play(Begin(user), acts), more))
  {
    hide Good, Do;
    PlayTwice(Begin(user), acts, more);
    Played(user, acts + more);
  }

  lemma {:induction false} PlayTwice(s: System, acts: seq<Act>, more: seq<Act>)
    ensures Play(s, acts + more) == Play(Play(s, acts), more)
  {
    hide Do;
    if more == [] {
      assert acts + more == acts;
    } else {
      assert (acts + more)[..|acts + more| - 1] == acts + more[..|more| - 1];
      PlayTwice(s, acts, more[..|more| - 1]);
    }
  }

  lemma SameContentInJob(s: System, r: RowId)
    requires Good(s) && r in s.jobs && r in s.l.rows
    ensures s.l.rows[r].hash == s.jobs[r].row.hash
  {
    hide Good, JobKnows;
    MatchAt(s, r);
  }

  /** While on the conflict the job keeps its row in memory. */
  lemma {:induction false} JobRowStays(s: System, more: seq<Act>, r: RowId, n: nat)
    requires r in s.jobs && OnConflict(s.jobs[r]) && InJobUntilLast(s, more, r) && n < |more|
    ensures r in Play(s, more[..n]).jobs && Play(s, more[..n]).jobs[r].row == s.jobs[r].row
  {
    hide Do, JobStep, OnConflict;
    if n == 0 {
      assert more[..0] == [];
    } else {
      JobRowStays(s, more, r, n - 1);
      OnConflictUntil(s, more, r, n - 1);
      var before := Play(s, more[..n - 1]);
      var act := more[n - 1];
      assert more[..n] == more[..n - 1] + [act];
      OneMore(s, more[..n - 1], act);
      assert r in Play(s, more[..n]).jobs;
      JobGoesOn(before, act, r);
      if act.Work? && act.r == r { WorkKeepsRow(before, r, act.x); }
    }
  }

  lemma WorkKeepsRow(s: System, r: RowId, x: Around)
    requires r in s.jobs && OnConflict(s.jobs[r]) && r in Do(s, Work(r, x)).jobs
    ensures Do(s, Work(r, x)).jobs[r].row == s.jobs[r].row
  {
    hide JobStep;
    if CanStep(s, r) { ConflictRow(s, r, x); }
  }

  // ---------------------------------------------------------------- what comes from elsewhere

  /** A job on a conflict that gets the cloud's version takes it over as what the client has; one that does not leaves the
      books as they are. */
  lemma ConflictAdoptsTheCloud(s: System, r: RowId, x: Around)
    requires CanStep(s, r) && s.jobs[r].AwaitCopy? && r in s.l.rows && s.l.rows[r].fileId == s.jobs[r].row.fileId && s.l.rows[r].fileId in s.l.files
    ensures var (f, pid, s') := (s.jobs[r].row.fileId, s.jobs[r].pid, JobStep(s, r, x));
      var arrives := !x.lost && pid in s.cloud.procs && s.cloud.procs[pid].pc.Done? && s.cloud.procs[pid].pc.reply.Content?;
      f in s'.l.files && s'.l.files[f] ==
        if arrives then LocalFile(s.cloud.procs[pid].pc.reply.version, s.cloud.procs[pid].pc.reply.current, InConflict, Active)
        else s.l.files[f].(status := InConflict)
  {
    hide HashedStep, PreflightAnswered, StoreStep, Call, Next, OnError, Retire;
  }

  /** So does a download from the cloud, whatever was known of the file before. */
  lemma PullAdoptsTheCloud(s: System, pid: Pid, status: SyncStatus)
    requires pid in s.cloud.procs && s.cloud.procs[pid].pc.Done? && s.cloud.procs[pid].pc.reply.Content?
    ensures var (reply, s') := (s.cloud.procs[pid].pc.reply, Do(s, Pull(pid, status)));
      && s'.l.files == s.l.files[reply.fileId := LocalFile(reply.version, reply.current, status, Active)]
      && s'.l.rows == s.l.rows && s'.cloud == s.cloud
  {
    hide JobStep, Next;
  }

  /** Content imported from a Telegram message is queued together with that message as its receipt, so it is never
      sent again. */
  lemma ImportIsQueuedAsSent(s: System, a: UpsertArgs, waiting: Option<RowId>, id: RowId, now: nat, receipt: SentReceipt)
    requires FileAtHand(s, a.f, a.file) && id !in s.used && id !in s.l.rows && PicksWaiting(s.l.rows, a.f, waiting)
    ensures var s' := Do(s, Edit(a, waiting, id, now, Some(receipt))); var q := if waiting.Some? then waiting.value else id;
      s'.l != s.l ==>
        && q in s'.l.rows && s'.l.rows[q].hash == Some(a.hash) && s'.l.rows[q].status == Pending
        && s'.l.rows[q].receipt == Some(SentReceipt(receipt.messageId, a.hash)) && s'.l.rows[q].backend == UserGroup
  {
    hide JobStep, Next, FileAtHand, UpsertSkipped, KeyTaken;
  }

  // ---------------------------------------------------------------- a crash keeps the row

  /** After a crash nothing is being uploaded, every row that was is ready at once, with its content, and
      can be dispatched again; all other rows and the files are as they were. */
  lemma CrashRequeues(user: UserId, acts: seq<Act>, now: nat)
    ensures var s := Play(Begin(user), acts); var s' := Play(Begin(user), acts + [Crash]);
      && s'.l.rows.Keys == s.l.rows.Keys && s'.l.files == s.l.files && s'.jobs == map[] && s'.cloud == s.cloud
      && (forall r | r in s'.l.rows :: s'.l.rows[r].status != Uploading)
      && (forall r | r in s.l.rows && s.l.rows[r].status != Uploading :: s'.l.rows[r] == s.l.rows[r])
      && (forall r | r in s.l.rows && s.l.rows[r].status == Uploading ::
            && Ready(s'.l.rows[r], now) && s'.l.rows[r] == s.l.rows[r].(status := Pending, retryAt := None)
            && (s.l.rows[r].operation == Upsert ==> r in Do(s', Dispatch(r, now)).jobs))
  {
    hide Next, JobStep;
    OneMore(Begin(user), acts, Crash);
  }
}
