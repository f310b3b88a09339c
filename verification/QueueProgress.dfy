/** An edit reaches the cloud: if nothing fails and nobody else touches the file meanwhile, a queued row's
    job ends with its content as the file's next version, over either storage. */
module QueueProgress {
  import opened Wrappers
  import opened CloudTables
  import opened CloudHandlers
  import opened CloudHistory
  import opened CloudProgress
  import opened LocalQueue
  import opened SyncClient
  import opened QueuedContent

  /** The bytes are what was queued, nothing is lost, and everything works. */
  function Fine(row: Row, pid: Pid, workspace: nat): Around {
    Around(row.hash, true, false, pid, 0, workspace, "a", "a", true, false, false, true, 0)
  }

  function Step0(id: nat): Input {
    Input(true, id, None, None)
  }

  // ---------------------------------------------------------------- one step of the job at a time

  lemma StartedGoesOn(s: System, r: RowId, row: Row, x: Around)
    requires r in s.jobs && s.jobs[r] == Started(row) && row.fileId in s.l.files
    ensures Do(s, Work(r, x)) == WithJob(s, r, Hashing(row, s.l.files[row.fileId].hash))
  {
    hide HashedStep, PreflightAnswered, StoreStep, Call, OnError, Retire, Next;
  }

  lemma HashingGoesOn(s: System, r: RowId, row: Row, cached: Option<Hash>, x: Around)
    requires r in s.jobs && s.jobs[r] == Hashing(row, cached) && row.hash.Some? && x.content == row.hash
    ensures Do(s, Work(r, x)) == WithJob(s, r, Asking(row))
  {
    hide PreflightAnswered, StoreStep, Call, OnError, Retire, Next;
  }

  lemma AskingGoesOn(s: System, r: RowId, row: Row, x: Around)
    requires r in s.jobs && s.jobs[r] == Asking(row) && row.hash.Some? && !x.lost && x.pid !in s.cloud.procs
    ensures Do(s, Work(r, x)) == WithJob(s.(cloud := Next(s.cloud, Arrive(x.pid, PreflightOf(s, row, x)))), r, AwaitPreflight(row, x.pid))
  {
    hide HashedStep, PreflightAnswered, StoreStep, OnError, Retire, Next, PreflightOf;
  }

  lemma AnsweredGoesOn(s: System, r: RowId, row: Row, pid: Pid, f: FileId, i: IntentId, x: Around)
    requires r in s.jobs && s.jobs[r] == AwaitPreflight(row, pid) && row.hash.Some? && !x.lost
    requires pid in s.cloud.procs && s.cloud.procs[pid].pc == Done(UploadRequired(f, i))
    ensures Do(s, Work(r, x)) == WithJob(s, r, Storing(row, i))
  {
    hide HashedStep, StoreStep, Call, OnError, Retire, Next;
  }

  lemma StoringByBot(s: System, r: RowId, row: Row, i: IntentId, x: Around)
    requires r in s.jobs && s.jobs[r] == Storing(row, i) && row.hash.Some? && row.receipt.None? && row.backend == Bot
    requires x.content == row.hash && !x.lost && x.pid !in s.cloud.procs
    ensures Do(s, Work(r, x)) == WithJob(s.(uploads := s.uploads + [r], cloud := Next(s.cloud, Arrive(x.pid, Upload(s.user, i, row.hash.value)))),
                                         r, AwaitStored(row, i, x.pid))
  {
    hide HashedStep, PreflightAnswered, OnError, Retire, Next;
  }

  lemma StoringByGroup(s: System, r: RowId, row: Row, i: IntentId, x: Around)
    requires r in s.jobs && s.jobs[r] == Storing(row, i) && row.hash.Some? && row.receipt.None? && row.backend != Bot && x.works
    ensures Do(s, Work(r, x)) == WithJob(s.(sent := s.sent + [r]), r, Sent(row, i, SentReceipt(x.message, row.hash.value)))
  {
    hide HashedStep, PreflightAnswered, OnError, Retire, Next, Call;
  }

  lemma SentGoesOn(s: System, r: RowId, row: Row, i: IntentId, receipt: SentReceipt, x: Around)
    requires r in s.jobs && s.jobs[r] == Sent(row, i, receipt) && row.hash.Some?
    ensures Do(s, Work(r, x))
      == WithJob(s.(l := SetUploadReceipt(s.l, r, receipt)), r, Reporting(row.(receipt := Some(receipt), backend := UserGroup), i))
  {
    hide HashedStep, PreflightAnswered, OnError, Retire, Next, Call, StoreStep, SetUploadReceipt;
  }

  lemma ReportingGoesOn(s: System, r: RowId, row: Row, i: IntentId, x: Around)
    requires r in s.jobs && s.jobs[r] == Reporting(row, i) && row.hash.Some? && row.receipt.Some? && !x.lost && x.pid !in s.cloud.procs
    ensures Do(s, Work(r, x)) == WithJob(s.(cloud := Next(s.cloud, Arrive(x.pid, Receipt(s.user, i, row.receipt.value.hash)))), r, AwaitStored(row, i, x.pid))
  {
    hide HashedStep, PreflightAnswered, OnError, Retire, Next, StoreStep;
  }

  lemma StoredGoesOn(s: System, r: RowId, row: Row, i: IntentId, pid: Pid, x: Around)
    requires r in s.jobs && s.jobs[r] == AwaitStored(row, i, pid) && row.hash.Some? && !x.lost
    requires pid in s.cloud.procs && s.cloud.procs[pid].pc == Done(UploadOk(i))
    ensures Do(s, Work(r, x)) == WithJob(s, r, Committing(row, i))
  {
    hide HashedStep, PreflightAnswered, OnError, Retire, Next, StoreStep, Call;
  }

  lemma CommittingGoesOn(s: System, r: RowId, row: Row, i: IntentId, x: Around)
    requires r in s.jobs && s.jobs[r] == Committing(row, i) && row.hash.Some? && !x.lost && x.pid !in s.cloud.procs
    ensures Do(s, Work(r, x)) == WithJob(s.(cloud := Next(s.cloud, Arrive(x.pid, Commit(s.user, i)))), r, AwaitCommit(row, i, x.pid))
  {
    hide HashedStep, PreflightAnswered, OnError, Retire, Next, StoreStep;
  }

  lemma CommittedEnds(s: System, r: RowId, row: Row, i: IntentId, pid: Pid, version: nat, x: Around)
    requires r in s.jobs && s.jobs[r] == AwaitCommit(row, i, pid) && row.hash.Some? && !x.lost
    requires r in s.l.rows && s.l.rows[r].hash == row.hash && s.l.rows[r].fileId == row.fileId && row.fileId in s.l.files
    requires pid in s.cloud.procs && s.cloud.procs[pid].pc == Done(CommitOk(row.fileId, version, row.hash.value))
    ensures var s' := Do(s, Work(r, x));
      && s'.cloud == s.cloud && r !in s'.jobs && r !in s'.l.rows && s'.retired == s.retired + [(row.fileId, row.hash.value)]
      && row.fileId in s'.l.files && s'.l.files[row.fileId] == s.l.files[row.fileId].(version := version, hash := row.hash, status := Synced)
      && s'.sent == s.sent && s'.uploads == s.uploads
  {
    hide HashedStep, PreflightAnswered, OnError, Next, StoreStep, Call, UniqueKeysIn;
  }

  // ---------------------------------------------------------------- the worker's statements in between

  lemma {:induction false} WorkerRuns(s: System, pid: Pid, x: Input, n: nat) returns (acts: seq<Act>)
    ensures Play(s, acts) == s.(cloud := Drive(s.cloud, pid, x, n))
  {
    hide Do;
    if n == 0 { return []; }
    var before := WorkerRuns(s, pid, x, n - 1);
    acts := before + [CloudMoves(Run(pid, x))];
    OneMore(s, before, CloudMoves(Run(pid, x)));
    assert Do(Play(s, before), CloudMoves(Run(pid, x))) == Play(s, before).(cloud := Next(Play(s, before).cloud, Run(pid, x))) by { MoveIs(Play(s, before), Run(pid, x)); }
  }

  lemma MoveIs(s: System, e: Event)
    ensures Do(s, CloudMoves(e)) == s.(cloud := Next(s.cloud, e))
  {
    hide Next;
  }

  // ---------------------------------------------------------------- the phases

  /** The row as it is queued, and the file as the cloud has it. */
  ghost predicate Edited(s: System, r: RowId, row: Row, now: nat) {
    && r in s.l.rows && s.l.rows[r] == row && r !in s.jobs && row.operation == Upsert && Ready(row, now)
    && row.hash.Some? && row.receipt.None? && row.fileId in s.l.files
    && row.fileId in s.cloud.t.files && s.cloud.t.files[row.fileId].status == Active
    && Free(s.cloud.t, row.fileId, row.base) && !(row.base > 0 && s.cloud.t.files[row.fileId].currentHash == row.hash)
    && KeyFree(s.cloud.t.intents, s.user, row.key)
  }

  ghost predicate Unused(s: System, id: nat) {
    id !in s.cloud.t.intents && id !in s.cloud.t.files && FreshVersionId(s.cloud.t.versions, id)
  }

  function Intent(s: System, row: Row): IntentRow
    requires row.hash.Some? && row.fileId in s.cloud.t.files
  {
    IntentRow(row.key, row.fileId, s.user, s.cloud.t.files[row.fileId].workspace, "a", row.base, row.hash.value, row.restoredFrom, row.backend, Reserved)
  }

  /** The job stands at `job`, its row uploading, and the cloud's tables hold the intent in this status;
      these processes of the worker are new. */
  ghost predicate Underway(s0: System, s: System, r: RowId, row: Row, i: IntentId, status: IntentStatus, job: Job, pids: set<Pid>)
    requires row.hash.Some? && row.fileId in s0.cloud.t.files
  {
    && s.user == s0.user && s.l.files.Keys == s0.l.files.Keys && s.retired == s0.retired
    && r in s.jobs && s.jobs[r] == job
    && r in s.l.rows && s.l.rows[r].hash == row.hash && s.l.rows[r].fileId == row.fileId
    && s.cloud.t == s0.cloud.t.(intents := s0.cloud.t.intents[i := Intent(s0, row).(status := status)])
    && s.cloud.procs.Keys == s0.cloud.procs.Keys + pids
  }

  /** Dispatched, hashed, asked. */
  lemma Asks(s: System, r: RowId, row: Row, now: nat, pid: Pid) returns (acts: seq<Act>, q: PreflightInput)
    requires Edited(s, r, row, now) && pid !in s.cloud.procs
    ensures q == PreflightInput(s.user, Some(row.fileId), None, s.cloud.t.files[row.fileId].workspace, "a", "a", row.hash.value, row.base, row.key, row.backend, row.restoredFrom)
    ensures Play(s, acts) == s.(l := LocalQueue.MarkUploading(s.l, r), cloud := Next(s.cloud, Arrive(pid, Preflight(q))), jobs := s.jobs[r := AwaitPreflight(row, pid)])
  {
    hide Do, Next, Edited, Play, LocalQueue.MarkUploading;
    EditedParts(s, r, row, now);
    var x := Fine(row, pid, s.cloud.t.files[row.fileId].workspace);
    q := PreflightInput(s.user, Some(row.fileId), None, s.cloud.t.files[row.fileId].workspace, "a", "a", row.hash.value, row.base, row.key, row.backend, row.restoredFrom);
    DispatchIs(s, r, row, now);
    var s1 := s.(l := LocalQueue.MarkUploading(s.l, r), jobs := s.jobs[r := Started(row)]);
    AsksOn(s1, r, row, pid, x);
    acts := [Dispatch(r, now), Work(r, x), Work(r, x), Work(r, x)];
    FourActs(s, acts);
    assert s1.jobs[r := AwaitPreflight(row, pid)] == s.jobs[r := AwaitPreflight(row, pid)];
  }

  lemma EditedParts(s: System, r: RowId, row: Row, now: nat)
    requires Edited(s, r, row, now)
    ensures row.hash.Some? && row.fileId in s.cloud.t.files
  {
    hide KeyFree, Free;
  }

  /** Started, hashed, asked. */
  lemma AsksOn(s: System, r: RowId, row: Row, pid: Pid, x: Around)
    requires r in s.jobs && s.jobs[r] == Started(row) && row.hash.Some? && row.fileId in s.l.files && pid !in s.cloud.procs
    requires x.content == row.hash && !x.lost && x.pid == pid
    ensures Do(Do(Do(s, Work(r, x)), Work(r, x)), Work(r, x))
      == s.(cloud := Next(s.cloud, Arrive(pid, PreflightOf(s, row, x))), jobs := s.jobs[r := AwaitPreflight(row, pid)])
  {
    hide Do, Next, PreflightOf;
    var cached := s.l.files[row.fileId].hash;
    StartedGoesOn(s, r, row, x);
    var s2 := WithJob(s, r, Hashing(row, cached));
    HashingGoesOn(s2, r, row, cached, x);
    var s3 := WithJob(s2, r, Asking(row));
    AskingGoesOn(s3, r, row, x);
    SamePreflight(s, s3, row, x);
    assert s3.jobs[r := AwaitPreflight(row, pid)] == s.jobs[r := AwaitPreflight(row, pid)];
  }

  lemma SamePreflight(s: System, s': System, row: Row, x: Around)
    requires row.hash.Some? && s'.user == s.user
    ensures PreflightOf(s', row, x) == PreflightOf(s, row, x)
  {
  }

  lemma DispatchIs(s: System, r: RowId, row: Row, now: nat)
    requires Edited(s, r, row, now)
    ensures Do(s, Dispatch(r, now)) == s.(l := LocalQueue.MarkUploading(s.l, r), jobs := s.jobs[r := Started(row)])
    ensures row.fileId in LocalQueue.MarkUploading(s.l, r).files
  {
    hide JobStep, Next;
  }

  lemma FourActs(s: System, acts: seq<Act>)
    requires |acts| == 4
    ensures Play(s, acts) == Do(Do(Do(Do(s, acts[0]), acts[1]), acts[2]), acts[3])
  {
    hide Do;
    assert acts[..3][..2] == acts[..2] && acts[..2][..1] == acts[..1] && acts[..1][..0] == [];
    assert Play(s, []) == s && Play(s, acts[..1]) == Do(s, acts[0]);
    assert Play(s, acts[..2]) == Do(Play(s, acts[..1]), acts[1]) && Play(s, acts[..3]) == Do(Play(s, acts[..2]), acts[2]);
  }

  lemma TwoActs(s: System, a: Act, b: Act)
    ensures Play(s, [a, b]) == Do(Do(s, a), b) && Play(s, [a]) == Do(s, a)
  {
    hide Do;
    assert [a, b][..1] == [a] && [a][..0] == [] && Play(s, []) == s;
  }

  lemma ThreeActs(s: System, a: Act, b: Act, c: Act)
    ensures Play(s, [a, b, c]) == Do(Do(Do(s, a), b), c)
  {
    hide Do;
    TwoActs(s, a, b);
    assert [a, b, c][..2] == [a, b];
  }

  /** The worker reserves the intent, and the job goes on to store the content. */
  lemma Reserves(s: System, r: RowId, row: Row, now: nat, pid: Pid, i: nat) returns (acts: seq<Act>)
    requires Edited(s, r, row, now) && pid !in s.cloud.procs && Unused(s, i)
    ensures Underway(s, Play(s, acts), r, row, i, Reserved, Storing(row, i), {pid})
    ensures Play(s, acts).sent == s.sent && Play(s, acts).uploads == s.uploads
  {
    hide Do, Drive, Play, LocalQueue.MarkUploading, FreshVersionId;
    var asks, q := Asks(s, r, row, now, pid);
    var s1 := Play(s, asks);
    ArrivesFresh(s.cloud, pid, Preflight(q), Step0(i));
    assert s1.cloud == Next(s.cloud, Arrive(pid, Preflight(q)));
    var runs := WorkerRuns(s1, pid, Step0(i), 5);
    EditIsAccepted(s1.cloud, pid, q, Step0(i));
    var s2 := Play(s1, runs);
    var x := Fine(row, pid, 0);
    AnsweredGoesOn(s2, r, row, pid, row.fileId, i, x);
    OneMore(s1, runs, Work(r, x));
    PlayTwice(s, asks, runs + [Work(r, x)]);
    acts := asks + (runs + [Work(r, x)]);
    UploadingRow(s.l, r, row);
  }

  lemma ArrivesFresh(w: World, pid: Pid, req: Request, x: Input)
    requires pid !in w.procs && x.ok && x.id !in w.t.intents && x.id !in w.t.files && FreshVersionId(w.t.versions, x.id)
    ensures var w' := Next(w, Arrive(pid, req)); Fresh(w', pid, req, x) && w'.t == w.t && w'.procs == w.procs[pid := Proc(req, FirstPc(req))]
  {
    hide FreshVersionId;
  }

  lemma UploadingRow(l: Local, r: RowId, row: Row)
    requires r in l.rows && l.rows[r] == row
    ensures var l' := LocalQueue.MarkUploading(l, r);
      l'.files.Keys == l.files.Keys && r in l'.rows && l'.rows[r].hash == row.hash && l'.rows[r].fileId == row.fileId
  {
  }

  /** The worker's answer to a request sent from here. */
  lemma StoredBy(s0: System, s: System, r: RowId, row: Row, job: Row, i: nat, pid: Pid, id: nat, n: nat, req: Request, pids: set<Pid>) returns (acts: seq<Act>)
    requires row.hash.Some? && row.fileId in s0.cloud.t.files && Free(s0.cloud.t, row.fileId, row.base) && Unused(s0, i) && Unused(s0, id) && i != id
    requires job.hash == row.hash && job.fileId == row.fileId
    requires Underway(s0, s, r, row, i, Reserved, AwaitStored(job, i, pid), pids) && pid in s.cloud.procs && s.cloud.procs[pid] == Proc(req, FirstPc(req))
    requires if row.backend == UserGroup then req == Receipt(s0.user, i, row.hash.value) && n == 2 else req == Upload(s0.user, i, row.hash.value) && n == 4
    ensures Underway(s0, Play(s, acts), r, row, i, Uploaded, Committing(job, i), pids)
    ensures Play(s, acts).sent == s.sent && Play(s, acts).uploads == s.uploads
  {
    hide Do, Drive, Play, FreshVersionId, PathTaken;
    var runs := WorkerRuns(s, pid, Step0(id), n);
    assert Fresh(s.cloud, pid, req, Step0(id));
    assert MayStore(s.cloud.t, req);
    if row.backend == UserGroup {
      ReceiptAlone(s.cloud, pid, s0.user, i, row.hash.value, Step0(id));
    } else {
      UploadAlone(s.cloud, pid, s0.user, i, row.hash.value, Step0(id));
    }
    var s1 := Play(s, runs);
    var x := Fine(row, pid, 0);
    StoredGoesOn(s1, r, job, i, pid, x);
    OneMore(s, runs, Work(r, x));
    acts := runs + [Work(r, x)];
    assert Stored(s.cloud.t, i).intents == s0.cloud.t.intents[i := Intent(s0, row).(status := Uploaded)];
  }

  /** Over the bot the worker takes the content itself. */
  lemma StoresByBot(s0: System, s: System, r: RowId, row: Row, i: nat, pid: Pid, id: nat, pids: set<Pid>) returns (acts: seq<Act>)
    requires row.hash.Some? && row.receipt.None? && row.backend == Bot
    requires row.fileId in s0.cloud.t.files && Free(s0.cloud.t, row.fileId, row.base) && Unused(s0, i) && Unused(s0, id) && i != id
    requires Underway(s0, s, r, row, i, Reserved, Storing(row, i), pids) && pid !in s.cloud.procs
    ensures Underway(s0, Play(s, acts), r, row, i, Uploaded, Committing(row, i), pids + {pid})
    ensures Play(s, acts).sent == s.sent && Play(s, acts).uploads == s.uploads + [r]
  {
    hide Do, Drive, Play, FreshVersionId, PathTaken;
    var x := Fine(row, pid, 0);
    StoringByBot(s, r, row, i, x);
    var s1 := Do(s, Work(r, x));
    ArrivesFreshLater(s.cloud, pid, Upload(s.user, i, row.hash.value));
    var stored := StoredBy(s0, s1, r, row, row, i, pid, id, 4, Upload(s.user, i, row.hash.value), pids + {pid});
    OneAct(s, Work(r, x));
    PlayTwice(s, [Work(r, x)], stored);
    acts := [Work(r, x)] + stored;
  }

  lemma ArrivesFreshLater(w: World, pid: Pid, req: Request)
    requires pid !in w.procs
    ensures var w' := Next(w, Arrive(pid, req)); w'.t == w.t && w'.procs == w.procs[pid := Proc(req, FirstPc(req))]
  {
  }

  lemma OneAct(s: System, a: Act)
    ensures Play(s, [a]) == Do(s, a)
  {
    hide Do;
    assert [a][..0] == [] && Play(s, []) == s;
  }

  /** Over the group the client sends it and reports the receipt. */
  lemma StoresByGroup(s0: System, s: System, r: RowId, row: Row, i: nat, pid: Pid, id: nat, pids: set<Pid>) returns (acts: seq<Act>, job: Row)
    requires row.hash.Some? && row.receipt.None? && row.backend == UserGroup
    requires row.fileId in s0.cloud.t.files && Free(s0.cloud.t, row.fileId, row.base) && Unused(s0, i) && Unused(s0, id) && i != id
    requires Underway(s0, s, r, row, i, Reserved, Storing(row, i), pids) && pid !in s.cloud.procs
    ensures job.hash == row.hash && job.fileId == row.fileId
    ensures Underway(s0, Play(s, acts), r, row, i, Uploaded, Committing(job, i), pids + {pid})
    ensures Play(s, acts).sent == s.sent + [r] && Play(s, acts).uploads == s.uploads
  {
    hide Do, Drive, Play, FreshVersionId, PathTaken, SetUploadReceipt;
    var x := Fine(row, pid, 0);
    var receipt := SentReceipt(x.message, row.hash.value);
    job := row.(receipt := Some(receipt), backend := UserGroup);
    StoringByGroup(s, r, row, i, x);
    var s1 := Do(s, Work(r, x));
    SentGoesOn(s1, r, row, i, receipt, x);
    var s2 := Do(s1, Work(r, x));
    ReportingGoesOn(s2, r, job, i, x);
    var s3 := Do(s2, Work(r, x));
    ArrivesFreshLater(s2.cloud, pid, Receipt(s2.user, i, row.hash.value));
    ReceiptRow(s1.l, r, receipt);
    var stored := StoredBy(s0, s3, r, row, job, i, pid, id, 2, Receipt(s2.user, i, row.hash.value), pids + {pid});
    ThreeActs(s, Work(r, x), Work(r, x), Work(r, x));
    PlayTwice(s, [Work(r, x), Work(r, x), Work(r, x)], stored);
    acts := [Work(r, x), Work(r, x), Work(r, x)] + stored;
  }

  lemma ReceiptRow(l: Local, r: RowId, receipt: SentReceipt)
    requires r in l.rows
    ensures var l' := SetUploadReceipt(l, r, receipt);
      l'.files == l.files && r in l'.rows && l'.rows[r].hash == l.rows[r].hash && l'.rows[r].fileId == l.rows[r].fileId
  {
  }

  /** The commit makes the version and the row is retired. */
  lemma Commits(s0: System, s: System, r: RowId, row: Row, job: Row, i: nat, pid: Pid, id: nat, pids: set<Pid>) returns (acts: seq<Act>)
    requires row.hash.Some? && job.hash == row.hash && job.fileId == row.fileId && row.fileId in s0.l.files && Dense(s0.cloud.t)
    requires row.fileId in s0.cloud.t.files && Free(s0.cloud.t, row.fileId, row.base) && Unused(s0, i) && Unused(s0, id) && i != id
    requires Underway(s0, s, r, row, i, Uploaded, Committing(job, i), pids) && pid !in s.cloud.procs
    ensures InTheCloud(s0, Play(s, acts), r, row)
    ensures Play(s, acts).sent == s.sent && Play(s, acts).uploads == s.uploads
  {
    hide Do, Drive, Play, FreshVersionId, PathTaken, Dense;
    var x := Fine(row, pid, 0);
    CommittingGoesOn(s, r, job, i, x);
    var s1 := Do(s, Work(r, x));
    SameDense(s0.cloud.t, s.cloud.t);
    ArrivesFresh(s.cloud, pid, Commit(s.user, i), Step0(id));
    assert s1.cloud == Next(s.cloud, Arrive(pid, Commit(s.user, i)));
    var runs := WorkerRuns(s1, pid, Step0(id), 3);
    CommitLands(s1.cloud, pid, s.user, i, Step0(id));
    var s2 := Play(s1, runs);
    CommittedEnds(s2, r, job, i, pid, row.base + 1, x);
    OneMore(s1, runs, Work(r, x));
    OneAct(s, Work(r, x));
    PlayTwice(s, [Work(r, x)], runs + [Work(r, x)]);
    acts := [Work(r, x)] + (runs + [Work(r, x)]);
  }

  lemma SameDense(t: Tables, t': Tables)
    requires Dense(t) && t'.files == t.files && t'.versions == t.versions
    ensures Dense(t')
  {
  }

  /** The content is the file's next version, in the cloud and in the client's books, and the row is gone. */
  ghost predicate InTheCloud(s: System, s': System, r: RowId, row: Row) {
    && r !in s'.l.rows && r !in s'.jobs && row.hash.Some? && s'.retired == s.retired + [(row.fileId, row.hash.value)]
    && row.fileId in s'.cloud.t.files && s'.cloud.t.files[row.fileId].currentVersion == row.base + 1
    && s'.cloud.t.files[row.fileId].currentHash == row.hash
    && row.fileId in s'.l.files && s'.l.files[row.fileId].version == row.base + 1 && s'.l.files[row.fileId].hash == row.hash
    && s'.l.files[row.fileId].status == Synced
  }

  // ---------------------------------------------------------------- main result

  /** From any state whatever, a ready row that builds on the cloud's current version gets its content into
      the cloud, if only its job and the worker's answers to it run: sent once, over the row's own
      channel, whatever other jobs, requests and rows there are. */
  lemma EditReachesTheCloud(s: System, r: RowId, row: Row, now: nat, i: nat, id: nat, p1: Pid, p2: Pid, p3: Pid) returns (acts: seq<Act>)
    requires Edited(s, r, row, now) && Dense(s.cloud.t) && Unused(s, i) && Unused(s, id) && i != id
    requires p1 !in s.cloud.procs && p2 !in s.cloud.procs && p3 !in s.cloud.procs && p1 != p2 && p2 != p3 && p3 != p1
    ensures InTheCloud(s, Play(s, acts), r, row)
    ensures Play(s, acts).sent == s.sent + (if row.backend == UserGroup then [r] else [])
    ensures Play(s, acts).uploads == s.uploads + (if row.backend == UserGroup then [] else [r])
  {
    hide Play, Unused, Free, Dense, InTheCloud;
    var first := Reserves(s, r, row, now, p1, i);
    var s1 := Play(s, first);
    var second, job := [], row;
    if row.backend == UserGroup {
      second, job := StoresByGroup(s, s1, r, row, i, p2, id, {p1});
    } else {
      second := StoresByBot(s, s1, r, row, i, p2, id, {p1});
    }
    var s2 := Play(s1, second);
    var third := Commits(s, s2, r, row, job, i, p3, id, {p1} + {p2});
    PlayTwice(s, first, second);
    PlayTwice(s, first + second, third);
    acts := first + second + third;
  }
}
