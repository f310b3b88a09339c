/** Whole runs of the worker: any number of requests, their statements interleaved in any order. */
module CloudHistory {
  import opened Wrappers
  import opened CloudTables
  import opened CloudHandlers

  /** `created` records every version row in the order the batches committed. */
  datatype World = World(t: Tables, procs: map<Pid, Proc>, created: seq<Creation>)

  datatype Event =
    | Arrive(pid: Pid, req: Request)
    | Run(pid: Pid, x: Input)
    | Metadata(fileId: FileId, name: string, path: string, status: FileStatus)

  const Start := World(Empty, map[], [])

  ghost function Next(w: World, e: Event): World {
    match e
    case Arrive(pid, req) =>
      if pid in w.procs then w else w.(procs := w.procs[pid := Proc(req, FirstPc(req))])
    case Run(pid, x) =>
      if pid !in w.procs then w else
        var o := Step(w.t, w.procs[pid], x);
        World(o.t, w.procs[pid := w.procs[pid].(pc := o.pc)],
              if o.created.Some? then w.created + [o.created.value] else w.created)
    case Metadata(f, name, path, status) =>
      // the unique index on active paths refuses the statement
      if f in w.t.files && status == Active && PathTaken(w.t.files, f, w.t.files[f].workspace, path) then w
      else w.(t := SetMetadata(w.t, f, name, path, status))
  }

  ghost function Runs(w: World, events: seq<Event>): World {
    if events == [] then w else Next(Runs(w, events[..|events| - 1]), events[|events| - 1])
  }

  // ---------------------------------------------------------------- the invariant of every run

  /** The record is exact: one entry per version row, in rising order per file, and a commit's
      entry is the version its intent asked for. */
  ghost predicate Recorded(t: Tables, created: seq<Creation>) {
    && (forall j | 0 <= j < |created| :: (created[j].fileId, created[j].version) in t.versions)
    && (forall a, b | 0 <= a < b < |created| && created[a].fileId == created[b].fileId :: created[a].version < created[b].version)
    && (forall k | k in t.versions :: exists j | 0 <= j < |created| :: (created[j].fileId, created[j].version) == k)
  }

  ghost predicate CausedBy(t: Tables, c: Creation) {
    c.cause.ByIntent? ==>
      && c.cause.intentId in t.intents
      && t.intents[c.cause.intentId].fileId == c.fileId
      && t.intents[c.cause.intentId].baseVersion + 1 == c.version
  }

  ghost predicate Caused(t: Tables, created: seq<Creation>) {
    forall j | 0 <= j < |created| :: CausedBy(t, created[j])
  }

  ghost predicate AllValid(t: Tables, procs: map<Pid, Proc>) {
    forall pid | pid in procs :: ValidPc(t, procs[pid].req, procs[pid].pc)
  }

  ghost predicate Inv(w: World) {
    Consistent(w.t) && AllValid(w.t, w.procs) && Recorded(w.t, w.created) && Caused(w.t, w.created)
  }

  lemma CausedStays(t: Tables, t': Tables, created: seq<Creation>)
    requires Caused(t, created) && Grows(t, t')
    ensures Caused(t', created)
  {
    forall j | 0 <= j < |created| ensures CausedBy(t', created[j]) {
      assert CausedBy(t, created[j]);
    }
  }

  lemma AllValidStays(t: Tables, t': Tables, procs: map<Pid, Proc>)
    requires AllValid(t, procs) && Grows(t, t')
    ensures AllValid(t', procs)
  {
    hide ValidPc, Grows;
    forall pid | pid in procs ensures ValidPc(t', procs[pid].req, procs[pid].pc) {
      ValidStays(t, t', procs[pid].req, procs[pid].pc);
    }
  }

  /** Recording the row that was just put on top of the chain. */
  lemma RecordedNext(t: Tables, created: seq<Creation>, o: Outcome)
    requires Consistent(t) && Recorded(t, created) && CreatesNext(t, o)
    ensures Recorded(o.t, if o.created.Some? then created + [o.created.value] else created)
  {
    hide Consistent;
    if o.created.Some? {
      var c := o.created.value;
      var created' := created + [c];
      forall a | 0 <= a < |created| && created[a].fileId == c.fileId ensures created[a].version < c.version {
        WithinChain(t, created[a].fileId, created[a].version);
      }
      forall k | k in o.t.versions ensures exists j | 0 <= j < |created'| :: (created'[j].fileId, created'[j].version) == k {
        if k in t.versions {
          var j :| 0 <= j < |created| && (created[j].fileId, created[j].version) == k;
          assert created'[j] == created[j];
        } else {
          assert created'[|created|] == c;
        }
      }
    }
  }

  lemma WithinChain(t: Tables, f: FileId, v: nat)
    requires Consistent(t) && (f, v) in t.versions
    ensures f in t.files && 1 <= v <= t.files[f].currentVersion
  {
  }

  lemma StepCaused(t: Tables, p: Proc, x: Input)
    requires Consistent(t) && ValidPc(t, p.req, p.pc)
    ensures Step(t, p, x).created.Some? ==> CausedBy(t, Step(t, p, x).created.value)
  {
    hide Consistent, PairReal, InChainAbove, FreshVersionId, Wins;
  }

  lemma NextKeeps(w: World, e: Event)
    requires Inv(w)
    ensures Inv(Next(w, e)) && Grows(w.t, Next(w, e).t)
  {
    hide Consistent, Recorded, Caused, ValidPc, Step, FilesGrow, VersionsGrow, IntentsGrow;
    GrowsRefl(w.t);
    match e
    case Arrive(pid, req) => FirstIsValid(w.t, req);
    case Run(pid, x) => if pid in w.procs { RunKeeps(w, pid, x); }
    case Metadata(f, name, path, status) =>
      SetMetadataKeeps(w.t, f, name, path, status);
      AllValidStays(w.t, Next(w, e).t, w.procs);
      CausedStays(w.t, Next(w, e).t, w.created);
      RecordedSame(w.t, Next(w, e).t, w.created);
  }

  lemma FirstIsValid(t: Tables, req: Request)
    ensures ValidPc(t, req, FirstPc(req))
  {
  }

  lemma RecordedSame(t: Tables, t': Tables, created: seq<Creation>)
    requires Recorded(t, created) && t'.versions == t.versions
    ensures Recorded(t', created)
  {
  }

  lemma RunKeeps(w: World, pid: Pid, x: Input)
    requires Inv(w) && pid in w.procs
    ensures Inv(Next(w, Run(pid, x))) && Grows(w.t, Next(w, Run(pid, x)).t)
  {
    hide Consistent, Recorded, Caused, CausedBy, ValidPc, Step, CreatesNext, Grows;
    var p := w.procs[pid];
    var o := Step(w.t, p, x);
    assert ValidPc(w.t, p.req, p.pc);
    StepKeeps(w.t, p, x);
    StepCaused(w.t, p, x);
    AllValidStays(w.t, o.t, w.procs);
    RecordedNext(w.t, w.created, o);
    CausedStays(w.t, o.t, w.created);
    CausedAppend(w.t, o.t, w.created, o.created);
  }

  lemma CausedAppend(t: Tables, t': Tables, created: seq<Creation>, c: Option<Creation>)
    requires Caused(t', created) && Grows(t, t') && (c.Some? ==> CausedBy(t, c.value))
    ensures Caused(t', if c.Some? then created + [c.value] else created)
  {
    if c.Some? {
      assert CausedBy(t', c.value);
      forall j | 0 <= j < |created + [c.value]| ensures CausedBy(t', (created + [c.value])[j]) {
        if j < |created| { assert CausedBy(t', created[j]); }
      }
    }
  }

  lemma StartInv()
    ensures Inv(Start)
  {
  }

  /** Every reachable world satisfies the invariant. */
  lemma {:induction false} Reachable(events: seq<Event>)
    ensures Inv(Runs(Start, events))
  {
    hide Inv;
    if events == [] {
      StartInv();
    } else {
      Reachable(events[..|events| - 1]);
      NextKeeps(Runs(Start, events[..|events| - 1]), events[|events| - 1]);
    }
  }

  /** Across any continuation of a run no row disappears, no version changes its content and no
      file goes back. */
  lemma {:induction false} HistoryIsPermanent(events: seq<Event>, more: seq<Event>)
    ensures Grows(Runs(Start, events).t, Runs(Start, events + more).t)
  {
    hide Grows, Next, Inv;
    if more == [] {
      assert events + more == events;
      GrowsRefl(Runs(Start, events).t);
    } else {
      var n := |more| - 1;
      var before := events + more[..n];
      assert (events + more)[..|events + more| - 1] == before;
      HistoryIsPermanent(events, more[..n]);
      Reachable(before);
      NextKeeps(Runs(Start, before), more[n]);
      GrowsTrans(Runs(Start, events).t, Runs(Start, before).t, Runs(Start, events + more).t);
    }
  }

  // ---------------------------------------------------------------- main results

  /** In every reachable state a file's versions are exactly 1..current, row n was built on n-1,
      and the file's pointer holds the hash of the last row. */
  lemma VersionChain(events: seq<Event>)
    ensures var t := Runs(Start, events).t;
      && (forall f, v: nat :: f in t.files ==> ((f, v) in t.versions <==> 1 <= v <= t.files[f].currentVersion))
      && (forall f, v: nat | (f, v) in t.versions :: f in t.files && t.versions[(f, v)].baseVersion == v - 1)
      && (forall f | f in t.files && t.files[f].currentVersion > 0 ::
            (f, t.files[f].currentVersion) in t.versions
            && t.files[f].currentHash == Some(t.versions[(f, t.files[f].currentVersion)].hash))
  {
    Reachable(events);
    var t := Runs(Start, events).t;
    assert Dense(t) && Linked(t.versions) && PointersReal(t);
    hide Inv, Runs;
    forall f | f in t.files && t.files[f].currentVersion > 0
      ensures (f, t.files[f].currentVersion) in t.versions
        && t.files[f].currentHash == Some(t.versions[(f, t.files[f].currentVersion)].hash)
    {
      assert PairReal(t, f, t.files[f].currentVersion, t.files[f].currentHash);
    }
  }

  /** In every reachable state the active files of a workspace stand at different paths, so a commit or
      restore that finds its file at its base is stopped by the database only for a file that
      was put in the trash and whose path another file has taken since. */
  lemma {:induction false} AlwaysOnePath(events: seq<Event>, a: Advance)
    ensures var t := Runs(Start, events).t;
      PathsUnique(t.files)
      && (AtBase(t.files, a.fileId, a.workspace, a.base) ==>
            (Aborts(t, a) <==>
              t.files[a.fileId].status != Active && PathTaken(t.files, a.fileId, a.workspace, t.files[a.fileId].relativePath)))
  {
    hide Next, Inv, PathsUnique, PathTaken, Aborts;
    if events == [] {
      assert PathsUnique(map[]) by { NoPaths(); }
    } else {
      AlwaysOnePath(events[..|events| - 1], a);
      NextKeepsPaths(Runs(Start, events[..|events| - 1]), events[|events| - 1]);
    }
    Reachable(events);
    if AtBase(Runs(Start, events).t.files, a.fileId, a.workspace, a.base) {
      DenseAt(Runs(Start, events));
      AbortsExactly(Runs(Start, events).t, a);
    }
  }

  lemma NoPaths()
    ensures PathsUnique(map[])
  {
  }

  lemma DenseAt(w: World)
    requires Inv(w)
    ensures Dense(w.t)
  {
  }

  lemma NextKeepsPaths(w: World, e: Event)
    requires PathsUnique(w.t.files)
    ensures PathsUnique(Next(w, e).t.files)
  {
    hide PathsUnique, PathTaken, Step;
    match e
    case Arrive(_, _) =>
    case Run(pid, x) => if pid in w.procs { StepKeepsPaths(w.t, w.procs[pid], x); }
    case Metadata(f, name, path, status) =>
      if f in w.t.files && (status == Active ==> !PathTaken(w.t.files, f, w.t.files[f].workspace, path)) {
        MovesKeepPaths(w.t, f, name, path, status);
      }
  }

  lemma MovesKeepPaths(t: Tables, f: FileId, name: string, path: string, status: FileStatus)
    requires PathsUnique(t.files) && f in t.files
    requires status == Active ==> !PathTaken(t.files, f, t.files[f].workspace, path)
    ensures PathsUnique(SetMetadata(t, f, name, path, status).files)
  {
    hide PathsUnique, PathTaken;
    RowKeepsPaths(t.files, f, t.files[f].(logicalName := name, relativePath := path, status := status));
  }

  lemma StepKeepsPaths(t: Tables, p: Proc, x: Input)
    requires PathsUnique(t.files)
    ensures PathsUnique(Step(t, p, x).t.files)
  {
    hide PathsUnique, PreflightStep, UploadStep, CommitBatch, RestoreBatch, RewindBatch, Wins, FreshVersionId, Aborts;
    match p.req
    case Preflight(q) => PreflightKeepsPaths(t, q, p.pc, x);
    case Upload(user, i, content) => UploadKeepsPaths(t, user, i, content, p.pc, x);
    case Receipt(user, i, content) => UploadKeepsPaths(t, user, i, content, p.pc, x);
    case Commit(user, i) =>
      if p.pc.CmBatch? { BatchesKeepPaths(t, CommitAdvance(p.pc.seen.row, p.pc.file, x), i, user, p.pc.seen.row.logicalName); }
    case Restore(_, f, version, base) =>
      if p.pc.RsBatch? { BatchesKeepPaths(t, RestoreAdvance(f, version, p.pc.file, p.pc.source, x), 0, 0, ""); }
    case RewindVersion(f, version) =>
      if p.pc.RwBatch? { BatchesKeepPaths(t, RestoreAdvance(f, version, p.pc.file, p.pc.source, x), 0, 0, ""); }
    case Download(f) =>
  }

  lemma PreflightKeepsPaths(t: Tables, q: PreflightInput, pc: Pc, x: Input)
    requires PathsUnique(t.files)
    ensures PathsUnique(PreflightStep(t, q, pc, x).t.files)
  {
    hide PathsUnique, PathTaken, FindKey, KeyFree, SamePath;
    if pc.PfCreate? {
      var f := if q.fileId.Some? then q.fileId.value else x.id;
      var row := FileRow(pc.ws, q.logicalName, q.relativePath, Active, 0, None);
      if f !in t.files && !PathTaken(t.files, f, pc.ws, q.relativePath) { RowKeepsPaths(t.files, f, row); }
    }
  }

  lemma UploadKeepsPaths(t: Tables, user: UserId, i: IntentId, content: Hash, pc: Pc, x: Input)
    requires PathsUnique(t.files)
    ensures PathsUnique(UploadStep(t, user, i, content, pc, x).t.files)
  {
    hide PathsUnique;
  }

  /** No lost update: however commits, restores and rewinds interleave, version n+1 of a file is
      created at most once, only while the file stands at n, and never out of order. */
  lemma NoLostUpdate(events: seq<Event>, e: Event)
    ensures var w := Runs(Start, events); var w' := Runs(Start, events + [e]);
      && (w'.created == w.created || (|w'.created| == |w.created| + 1 && w'.created[..|w.created|] == w.created
            && w'.created[|w.created|].fileId in w.t.files
            && w.t.files[w'.created[|w.created|].fileId].currentVersion + 1 == w'.created[|w.created|].version))
      && (forall a, b | 0 <= a < b < |w'.created| && w'.created[a].fileId == w'.created[b].fileId ::
            w'.created[a].version < w'.created[b].version)
  {
    assert (events + [e])[..|events + [e]| - 1] == events;
    Reachable(events);
    Reachable(events + [e]);
    NextRecords(Runs(Start, events), e);
    hide Consistent, AllValid, Caused, Next;
  }

  lemma NextRecords(w: World, e: Event)
    requires Inv(w)
    ensures var w' := Next(w, e);
      || w'.created == w.created
      || (|w'.created| == |w.created| + 1 && w'.created[..|w.created|] == w.created
            && w'.created[|w.created|].fileId in w.t.files
            && w.t.files[w'.created[|w.created|].fileId].currentVersion + 1 == w'.created[|w.created|].version)
  {
    hide Consistent, Recorded, Caused, ValidPc, Step, Grows;
    if e.Run? && e.pid in w.procs {
      assert ValidPc(w.t, w.procs[e.pid].req, w.procs[e.pid].pc);
      StepKeeps(w.t, w.procs[e.pid], e.x);
    }
  }

  /** One upload intent, and so one (owner, idempotency key), yields at most one version. */
  lemma OneVersionPerKey(events: seq<Event>, a: nat, b: nat)
    requires a < b < |Runs(Start, events).created|
    requires Runs(Start, events).created[a].cause.ByIntent? && Runs(Start, events).created[b].cause.ByIntent?
    ensures var w := Runs(Start, events);
      var i := w.created[a].cause.intentId; var j := w.created[b].cause.intentId;
      i in w.t.intents && j in w.t.intents
      && (w.t.intents[i].owner, w.t.intents[i].key) != (w.t.intents[j].owner, w.t.intents[j].key)
  {
    Reachable(events);
    var w := Runs(Start, events);
    assert CausedBy(w.t, w.created[a]) && CausedBy(w.t, w.created[b]);
    assert UniqueKeys(w.t.intents);
  }

  /** A finished request's answer is true when it is given and for ever after: the version it names
      exists with the hash it names, and a successful commit's content is in the chain. */
  lemma RepliesHold(events: seq<Event>, more: seq<Event>, pid: Pid)
    requires pid in Runs(Start, events).procs && Runs(Start, events).procs[pid].pc.Done?
    ensures var p := Runs(Start, events).procs[pid];
      ReplyHolds(Runs(Start, events + more).t, p.req, p.pc.reply)
  {
    hide Consistent, Recorded, Caused, Runs, Grows, ReplyHolds;
    Reachable(events);
    HistoryIsPermanent(events, more);
    var p := Runs(Start, events).procs[pid];
    assert ValidPc(Runs(Start, events).t, p.req, p.pc);
    ReplyStays(Runs(Start, events).t, Runs(Start, events + more).t, p.req, p.pc.reply);
  }

  /** An intent that was committed or abandoned has been overtaken by its file. */
  lemma EndedIntentsAreOvertaken(events: seq<Event>, i: IntentId)
    requires i in Runs(Start, events).t.intents && Ended(Runs(Start, events).t.intents[i].status)
    ensures var t := Runs(Start, events).t;
      t.intents[i].fileId in t.files && t.files[t.intents[i].fileId].currentVersion > t.intents[i].baseVersion
  {
    Reachable(events);
    var t := Runs(Start, events).t;
    assert IntentsSettled(t);
    EndedMovedOn(t, t.intents[i].fileId, t.intents[i].baseVersion, t.intents[i].hash);
  }

  // ---------------------------------------------------------------- retention

  /** The last expired version at or below `v`. */
  ghost function ExpiredUpTo(t: Tables, f: FileId, v: nat): (e: nat)
    ensures e <= v && (e > 0 ==> IsExpired(t, (f, e)))
    ensures forall u: nat | e < u <= v :: !IsExpired(t, (f, u))
  {
    if v == 0 || IsExpired(t, (f, v)) then v else ExpiredUpTo(t, f, v - 1)
  }

  ghost function ExpiredEnd(t: Tables, f: FileId): nat
    requires f in t.files
  {
    ExpiredUpTo(t, f, t.files[f].currentVersion)
  }

  /** Whatever the users' limits and however they change: versions 1..e are expired, the current one
      is active, everything between is archived, at least one archived version remains before the
      current one, and e never goes back. */
  lemma RetentionForms(events: seq<Event>, more: seq<Event>, f: FileId)
    requires f in Runs(Start, events).t.files
    ensures var t := Runs(Start, events).t; var t' := Runs(Start, events + more).t;
      && (forall v: nat | 1 <= v <= t.files[f].currentVersion ::
            (f, v) in t.versions && t.versions[(f, v)].status ==
              if v <= ExpiredEnd(t, f) then Expired else if v == t.files[f].currentVersion then Current else Archived)
      && (ExpiredEnd(t, f) == 0 || ExpiredEnd(t, f) + 2 <= t.files[f].currentVersion)
      && f in t'.files && ExpiredEnd(t, f) <= ExpiredEnd(t', f)
  {
    var t := Runs(Start, events).t;
    var t' := Runs(Start, events + more).t;
    Reachable(events);
    HistoryIsPermanent(events, more);
    ShapeAt(t, f);
    ExpiryOnlyGrows(t, t', f);
    hide Runs, ExpiredUpTo, Inv, Grows;
  }

  lemma ShapeAt(t: Tables, f: FileId)
    requires Dense(t) && RetentionShape(t) && f in t.files
    ensures forall v: nat | 1 <= v <= t.files[f].currentVersion ::
      (f, v) in t.versions && t.versions[(f, v)].status ==
        if v <= ExpiredEnd(t, f) then Expired else if v == t.files[f].currentVersion then Current else Archived
    ensures ExpiredEnd(t, f) == 0 || ExpiredEnd(t, f) + 2 <= t.files[f].currentVersion
  {
    var e := ExpiredEnd(t, f);
    forall v: nat | 1 <= v <= t.files[f].currentVersion
      ensures (f, v) in t.versions && t.versions[(f, v)].status ==
        if v <= e then Expired else if v == t.files[f].currentVersion then Current else Archived
    {
      assert (f, v) in t.versions;
      if v < e { assert IsExpired(t, (f, e)) && IsExpired(t, (f, v)); }
    }
  }

  lemma ExpiryOnlyGrows(t: Tables, t': Tables, f: FileId)
    requires Grows(t, t') && f in t.files
    ensures f in t'.files && ExpiredEnd(t, f) <= ExpiredEnd(t', f)
  {
    var e := ExpiredEnd(t, f);
    if e > 0 {
      assert IsExpired(t, (f, e));
      assert IsExpired(t', (f, e));
    }
  }

  // ---------------------------------------------------------------- replaying an idempotency key

  /** A key whose intent has ended is never answered with more work: whatever happens between the
      statements of the handler, a replay that finds the ended intent ends in noop, conflict or an
      error, so the answers for committed and abandoned intents are out of its reach. */
  lemma ReplayOfEndedIntent(t0: Tables, t1: Tables, t2: Tables, q: PreflightInput, known: Option<FileRow>, ws: nat, x0: Input, x1: Input, x2: Input)
    requires Consistent(t0) && Consistent(t1) && Grows(t0, t1) && Grows(t1, t2)
    requires FindKey(t0, q.user, q.key).Some? && Ended(FindKey(t0, q.user, q.key).value.row.status)
    requires ValidPc(t0, Preflight(q), PfKey(known, ws))
    ensures var p1 := PreflightStep(t0, q, PfKey(known, ws), x0).pc;
      var p2 := PreflightStep(t1, q, p1, x1).pc;
      var p3 := PreflightStep(t2, q, p2, x2).pc;
      p3.Done? && (p3.reply.Noop? || p3.reply.Conflict? || (p3.reply.Failed? && p3.reply.code in {KeyReused, Refused, FileNotFound}))
  {
    hide Consistent, Grows, PairReal, InChainAbove, SameIntent;
    var p1 := PreflightStep(t0, q, PfKey(known, ws), x0).pc;
    PreflightLookups(t0, q, PfKey(known, ws), x0);
    ValidStays(t0, t1, Preflight(q), p1);
    if p1.PfReplayFile? {
      PreflightReads(t1, q, p1, x1);
    }
  }

  /** The handler run on its own: nobody else's statement in between. */
  ghost function Alone(t: Tables, q: PreflightInput, pc: Pc, inputs: seq<Input>): Outcome
    decreases |inputs|
  {
    if inputs == [] then Stay(t, pc)
    else
      var o := PreflightStep(t, q, pc, inputs[0]);
      Alone(o.t, q, o.pc, inputs[1..])
  }

  /** No lookup has found, and none can still find, an ended intent it would answer from. */
  ghost predicate NotFromEnded(t: Tables, q: PreflightInput, pc: Pc) {
    match pc
    case PfCreate(_) => KeyFree(t.intents, q.user, q.key)
    case PfRead(_) => KeyFree(t.intents, q.user, q.key)
    case PfDecide(_, _, replayed) => replayed.None? ==> KeyFree(t.intents, q.user, q.key)
    case PfKeyAgain(_, _) => KeyFree(t.intents, q.user, q.key)
    case PfFresh(_, _) => false
    case Done(reply) => !reply.AlreadyCommitted? && reply != Failed(IntentAbandoned)
    case _ => true
  }

  lemma AloneStep(t: Tables, q: PreflightInput, pc: Pc, x: Input)
    requires Consistent(t) && ValidPc(t, Preflight(q), pc) && NotFromEnded(t, q, pc)
    ensures NotFromEnded(PreflightStep(t, q, pc, x).t, q, PreflightStep(t, q, pc, x).pc)
  {
    hide Consistent, SeenFile, SeenIntent, ForFile, ReplyHolds;
  }

  /** With handlers run one at a time the answers "committed" and "abandoned" (worker/src/index.ts,
      lines 1182 and 1187) are never given: an ended intent's file has moved past the intent's base. */
  lemma {:induction false} AtomicNeverAnswersEnded(t: Tables, q: PreflightInput, pc: Pc, inputs: seq<Input>)
    requires Consistent(t) && ValidPc(t, Preflight(q), pc) && NotFromEnded(t, q, pc)
    ensures NotFromEnded(Alone(t, q, pc, inputs).t, q, Alone(t, q, pc, inputs).pc)
    decreases |inputs|
  {
    hide Consistent, ValidPc, NotFromEnded, PreflightStep, StepOk;
    if inputs != [] {
      PreflightKeeps(t, q, pc, inputs[0]);
      AloneStep(t, q, pc, inputs[0]);
      var o := PreflightStep(t, q, pc, inputs[0]);
      StepOkIs(t, Preflight(q), o);
      AtomicNeverAnswersEnded(o.t, q, o.pc, inputs[1..]);
    }
  }

  lemma StepOkIs(t: Tables, req: Request, o: Outcome)
    requires StepOk(t, req, o)
    ensures Consistent(o.t) && ValidPc(o.t, req, o.pc)
  {
    hide Consistent, ValidPc, Grows, CreatesNext;
  }

  lemma AtomicPreflight(t: Tables, q: PreflightInput, inputs: seq<Input>)
    requires Consistent(t) && Alone(t, q, PfFile, inputs).pc.Done?
    ensures !Alone(t, q, PfFile, inputs).pc.reply.AlreadyCommitted? && Alone(t, q, PfFile, inputs).pc.reply != Failed(IntentAbandoned)
  {
    hide Consistent, Alone;
    AtomicNeverAnswersEnded(t, q, PfFile, inputs);
  }

  /** Runs of `n` further statements of one request. */
  ghost function Drive(w: World, pid: Pid, x: Input, n: nat): World {
    if n == 0 then w else Next(Drive(w, pid, x, n - 1), Run(pid, x))
  }

  lemma {:induction false} Driven(events: seq<Event>, pid: Pid, x: Input, n: nat) returns (events': seq<Event>)
    ensures Runs(Start, events') == Drive(Runs(Start, events), pid, x, n)
  {
    if n == 0 { return events; }
    var before := Driven(events, pid, x, n - 1);
    events' := before + [Run(pid, x)];
    assert events'[..|events'| - 1] == before;
  }

  lemma Arrived(events: seq<Event>, pid: Pid, req: Request) returns (events': seq<Event>)
    ensures Runs(Start, events') == Next(Runs(Start, events), Arrive(pid, req))
  {
    events' := events + [Arrive(pid, req)];
    assert events'[..|events'| - 1] == events;
  }

  const LateKey := Key(7, 0, Some(9), Plain)
  const LateInput := PreflightInput(1, Some(7), Some(0), 0, "a", "a", 9, 0, LateKey, Bot, None)
  const LateStep := Input(true, 100, None, None)
  const LateFile := FileRow(0, "a", "a", Active, 0, None)

  function LateIntent(status: IntentStatus): IntentRow {
    IntentRow(LateKey, 7, 1, 0, "a", 0, 9, None, Bot, status)
  }

  /** The world after some statements of one request, when only it ran. */
  ghost function Only(w: World, pid: Pid, t: Tables, pc: Pc): World
    requires pid in w.procs
  {
    World(t, w.procs[pid := w.procs[pid].(pc := pc)], w.created)
  }

  lemma DriveOne(w: World, pid: Pid, n: nat, t: Tables, pc: Pc, t': Tables, pc': Pc)
    requires pid in w.procs && Drive(w, pid, LateStep, n) == Only(w, pid, t, pc)
    requires Step(t, w.procs[pid].(pc := pc), LateStep) == Stay(t', pc')
    ensures Drive(w, pid, LateStep, n + 1) == Only(w, pid, t', pc')
  {
    hide Step;
  }

  const LateEmpty := Tables(map[7 := LateFile], map[], map[])

  function LateTables(status: IntentStatus): Tables {
    LateEmpty.(intents := map[100 := LateIntent(status)])
  }

  /** The file row is created and the first request stands before its second key lookup. */
  lemma LateFirst(w: World)
    requires 1 in w.procs && w.procs[1] == Proc(Preflight(LateInput), PfFile) && w.t == Empty
    ensures Drive(w, 1, LateStep, 5) == Only(w, 1, LateEmpty, PfKeyAgain(7, LateFile))
  {
    hide UploadStep, CommitStep, RestoreStep, RewindStep, DownloadStep, Inv;
    assert Drive(w, 1, LateStep, 0) == Only(w, 1, w.t, PfFile);
    DriveOne(w, 1, 0, Empty, PfFile, Empty, PfKey(None, 0));
    DriveOne(w, 1, 1, Empty, PfKey(None, 0), Empty, PfCreate(0));
    DriveOne(w, 1, 2, Empty, PfCreate(0), LateEmpty, PfRead(7));
    DriveOne(w, 1, 3, LateEmpty, PfRead(7), LateEmpty, PfDecide(7, LateFile, None));
    DriveOne(w, 1, 4, LateEmpty, PfDecide(7, LateFile, None), LateEmpty, PfKeyAgain(7, LateFile));
  }

  /** Left alone, that request reserves the intent. */
  lemma LateWhole(w: World)
    requires 1 in w.procs && w.procs[1] == Proc(Preflight(LateInput), PfFile) && w.t == Empty
    ensures Drive(w, 1, LateStep, 7) == Only(w, 1, LateTables(Reserved), Done(UploadRequired(7, 100)))
  {
    hide UploadStep, CommitStep, RestoreStep, RewindStep, DownloadStep, Inv;
    LateFirst(w);
    DriveOne(w, 1, 5, LateEmpty, PfKeyAgain(7, LateFile), LateEmpty, PfInsert(7, LateFile));
    DriveOne(w, 1, 6, LateEmpty, PfInsert(7, LateFile), LateTables(Reserved), Done(UploadRequired(7, 100)));
  }

  /** A second request with the same key reserves the intent. */
  lemma LateSecond(w: World)
    requires 2 in w.procs && w.procs[2] == Proc(Preflight(LateInput), PfFile) && w.t == LateEmpty
    ensures Drive(w, 2, LateStep, 5) == Only(w, 2, LateTables(Reserved), Done(UploadRequired(7, 100)))
  {
    hide UploadStep, CommitStep, RestoreStep, RewindStep, DownloadStep, Inv;
    assert Drive(w, 2, LateStep, 0) == Only(w, 2, w.t, PfFile);
    DriveOne(w, 2, 0, LateEmpty, PfFile, LateEmpty, PfKey(Some(LateFile), 0));
    DriveOne(w, 2, 1, LateEmpty, PfKey(Some(LateFile), 0), LateEmpty, PfDecide(7, LateFile, None));
    DriveOne(w, 2, 2, LateEmpty, PfDecide(7, LateFile, None), LateEmpty, PfKeyAgain(7, LateFile));
    DriveOne(w, 2, 3, LateEmpty, PfKeyAgain(7, LateFile), LateEmpty, PfInsert(7, LateFile));
    DriveOne(w, 2, 4, LateEmpty, PfInsert(7, LateFile), LateTables(Reserved), Done(UploadRequired(7, 100)));
  }

  lemma LateUploadSteps()
    ensures var t := LateTables(Reserved); var seen := Seen(100, LateIntent(Reserved));
      && UploadStep(t, 1, 100, 9, UpIntent, LateStep) == Stay(t, UpFile(seen))
      && UploadStep(t, 1, 100, 9, UpFile(seen), LateStep) == Stay(t, UpStore(seen))
      && UploadStep(t, 1, 100, 9, UpStore(seen), LateStep) == Stay(t, UpSave(seen))
      && UploadStep(t, 1, 100, 9, UpSave(seen), LateStep) == Stay(LateTables(Uploaded), Done(UploadOk(100)))
  {
    assert LateTables(Uploaded).intents[100] != LateTables(Reserved).intents[100];
    assert MarkUploaded(LateTables(Reserved), 100, 1) == LateTables(Uploaded);
  }

  lemma LateUpload(w: World)
    requires 3 in w.procs && w.procs[3] == Proc(Upload(1, 100, 9), UpIntent) && w.t == LateTables(Reserved)
    ensures Drive(w, 3, LateStep, 4) == Only(w, 3, LateTables(Uploaded), Done(UploadOk(100)))
  {
    hide UploadStep, PreflightStep, CommitStep, RestoreStep, RewindStep, DownloadStep, Inv, LateTables, LateIntent;
    LateUploadSteps();
    var seen := Seen(100, LateIntent(Reserved));
    assert Drive(w, 3, LateStep, 0) == Only(w, 3, w.t, UpIntent);
    DriveOne(w, 3, 0, w.t, UpIntent, w.t, UpFile(seen));
    DriveOne(w, 3, 1, w.t, UpFile(seen), w.t, UpStore(seen));
    DriveOne(w, 3, 2, w.t, UpStore(seen), w.t, UpSave(seen));
    DriveOne(w, 3, 3, w.t, UpSave(seen), LateTables(Uploaded), Done(UploadOk(100)));
  }

  /** A commit that has read intent and file and stands before its batch. */
  lemma LateCommitReady(w: World)
    requires 4 in w.procs && w.procs[4] == Proc(Commit(1, 100), CmIntent) && w.t == LateTables(Uploaded)
    ensures Drive(w, 4, LateStep, 2) == Only(w, 4, w.t, CmBatch(Seen(100, LateIntent(Uploaded)), LateFile))
  {
    hide CommitBatch, PreflightStep, UploadStep, RestoreStep, RewindStep, DownloadStep, Inv;
    var seen := Seen(100, LateIntent(Uploaded));
    assert Drive(w, 4, LateStep, 0) == Only(w, 4, w.t, CmIntent);
    DriveOne(w, 4, 0, w.t, CmIntent, w.t, CmFile(seen));
    DriveOne(w, 4, 1, w.t, CmFile(seen), w.t, CmBatch(seen, LateFile));
  }

  lemma LateCommit(w: World)
    requires 4 in w.procs && w.procs[4] == Proc(Commit(1, 100), CmIntent) && w.t == LateTables(Uploaded)
    ensures var w' := Drive(w, 4, LateStep, 3);
      && (forall pid | pid in w.procs && pid != 4 :: pid in w'.procs && w'.procs[pid] == w.procs[pid])
      && 7 in w'.t.files && w'.t.intents == LateTables(Committed).intents
  {
    hide CommitBatch, PreflightStep, UploadStep, RestoreStep, RewindStep, DownloadStep, Inv;
    LateCommitReady(w);
    assert Drive(w, 4, LateStep, 3) == Next(Drive(w, 4, LateStep, 2), Run(4, LateStep));
    LateBatch();
  }

  lemma LateBatch()
    ensures var o := CommitStep(LateTables(Uploaded), 1, 100, CmBatch(Seen(100, LateIntent(Uploaded)), LateFile), LateStep);
      && 7 in o.t.files && o.t.intents == LateTables(Committed).intents
      && o.created == Some(Creation(7, 1, ByIntent(100))) && o.t != LateTables(Uploaded)
  {
    hide AgedVersions;
    assert LateTables(Committed).intents[100] != LateTables(Uploaded).intents[100];
    assert Wins(LateTables(Uploaded), CommitAdvance(LateIntent(Uploaded), LateFile, LateStep));
  }

  lemma LateAnswer(w: World)
    requires 1 in w.procs && w.procs[1] == Proc(Preflight(LateInput), PfKeyAgain(7, LateFile))
    requires 7 in w.t.files && w.t.intents == LateTables(Committed).intents
    ensures Drive(w, 1, LateStep, 2) == Only(w, 1, w.t,
      Done(AlreadyCommitted(7, 100, w.t.files[7].currentVersion, w.t.files[7].currentHash)))
  {
    hide UploadStep, CommitStep, RestoreStep, RewindStep, DownloadStep, Inv;
    var seen := Seen(100, LateIntent(Committed));
    assert 100 in w.t.intents && w.t.intents[100].owner == 1 && w.t.intents[100].key == LateKey;
    assert Drive(w, 1, LateStep, 0) == Only(w, 1, w.t, PfKeyAgain(7, LateFile));
    DriveOne(w, 1, 0, w.t, PfKeyAgain(7, LateFile), w.t, PfFresh(7, seen));
    DriveOne(w, 1, 1, w.t, PfFresh(7, seen), w.t, Done(AlreadyCommitted(7, 100, w.t.files[7].currentVersion, w.t.files[7].currentHash)));
  }

  /** The condition on the first lookup is needed: when the key is inserted and committed between a
      handler's two lookups, the second one does answer `committed`. */
  lemma LateKeyIsAnsweredCommitted() returns (events: seq<Event>)
    ensures 1 in Runs(Start, events).procs
    ensures Runs(Start, events).procs[1].pc.Done? && Runs(Start, events).procs[1].pc.reply.AlreadyCommitted?
  {
    hide Next, Drive;
    events := Arrived([], 1, Preflight(LateInput));
    assert Runs(Start, []) == Start;
    Arrives(Start, 1, Preflight(LateInput));
    LateFirst(Runs(Start, events));
    events := Driven(events, 1, LateStep, 5);
    var w := Runs(Start, events);
    events := Arrived(events, 2, Preflight(LateInput));
    Arrives(w, 2, Preflight(LateInput));
    LateSecond(Runs(Start, events));
    events := Driven(events, 2, LateStep, 5);
    w := Runs(Start, events);
    events := Arrived(events, 3, Upload(1, 100, 9));
    Arrives(w, 3, Upload(1, 100, 9));
    LateUpload(Runs(Start, events));
    events := Driven(events, 3, LateStep, 4);
    w := Runs(Start, events);
    events := Arrived(events, 4, Commit(1, 100));
    Arrives(w, 4, Commit(1, 100));
    w := Runs(Start, events);
    LateCommit(w);
    events := Driven(events, 4, LateStep, 3);
    LateAnswer(Runs(Start, events));
    events := Driven(events, 1, LateStep, 2);
  }

  lemma Arrives(w: World, pid: Pid, req: Request)
    requires pid !in w.procs
    ensures Next(w, Arrive(pid, req)) == w.(procs := w.procs[pid := Proc(req, FirstPc(req))])
  {
  }
}
