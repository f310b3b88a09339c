/** What the worker's statements do to the tables, stated on the tables alone: the one row a new version
    adds, what it expires, and how an upload intent moves from one status to the next. */
module CloudEffects {
  import opened Wrappers
  import opened CloudTables
  import opened CloudHandlers
  import opened CloudHistory

  // ---------------------------------------------------------------- what a request remembers

  /** The intent a handler works on is the caller's, in the status the handler looked for, and what is
      stored for it is its content. */
  ghost predicate Mindful(t: Tables, p: Proc) {
    match (p.req, p.pc)
    case (Commit(user, i), CmFile(seen)) => MindsIntent(t, user, i, seen, Uploaded)
    case (Commit(user, i), CmAbandon(seen, _)) => MindsIntent(t, user, i, seen, Uploaded)
    case (Commit(user, i), CmBatch(seen, file)) => MindsIntent(t, user, i, seen, Uploaded)
    case (Upload(user, i, content), UpFile(seen)) => MindsIntent(t, user, i, seen, Reserved) && seen.row.backend != UserGroup
    case (Upload(user, i, content), UpStore(seen)) => MindsIntent(t, user, i, seen, Reserved) && seen.row.backend != UserGroup && content == seen.row.hash
    case (Upload(user, i, content), UpSave(seen)) => MindsIntent(t, user, i, seen, Reserved) && seen.row.backend != UserGroup && content == seen.row.hash
    case (Receipt(user, i, content), RcSave(seen)) => MindsIntent(t, user, i, seen, Reserved) && seen.row.backend == UserGroup && content == seen.row.hash
    case _ => OwnPc(p)
  }

  /** A position of the request's own handler. */
  predicate OwnPc(p: Proc) {
    match p.pc
    case CmFile(_) => p.req.Commit?
    case CmAbandon(_, _) => p.req.Commit?
    case CmBatch(_, _) => p.req.Commit?
    case UpFile(_) => p.req.Upload?
    case UpStore(_) => p.req.Upload?
    case UpSave(_) => p.req.Upload?
    case UpIntent => p.req.Upload?
    case RcIntent => p.req.Receipt?
    case RcSave(_) => p.req.Receipt?
    case _ => true
  }

  ghost predicate MindsIntent(t: Tables, user: UserId, i: IntentId, seen: Seen, status: IntentStatus) {
    && seen.id == i && i in t.intents && SameIntent(seen.row, t.intents[i])
    && seen.row.owner == user && seen.row.status == status
  }

  lemma MindfulStays(t: Tables, t': Tables, p: Proc)
    requires Grows(t, t') && Mindful(t, p)
    ensures Mindful(t', p)
  {
    hide FilesGrow, VersionsGrow;
  }

  lemma MindfulStep(t: Tables, p: Proc, x: Input)
    requires Mindful(t, p) && Grows(t, Step(t, p, x).t)
    ensures Mindful(Step(t, p, x).t, p.(pc := Step(t, p, x).pc))
  {
    hide Grows, FindKey, KeyFree, CommitBatch, RestoreBatch, RewindBatch, Wins, Aborts, FreshVersionId, InsertIntent, PathTaken, SamePath;
    match p.req
    case Preflight(q) =>
    case Upload(_, _, _) => UploadMinds(t, p, x);
    case Receipt(_, _, _) => UploadMinds(t, p, x);
    case Commit(_, _) => CommitMinds(t, p, x);
    case Restore(_, _, _, _) =>
    case RewindVersion(_, _) =>
    case Download(_) =>
  }

  lemma UploadMinds(t: Tables, p: Proc, x: Input)
    requires Mindful(t, p) && (p.req.Upload? || p.req.Receipt?)
    ensures Mindful(Step(t, p, x).t, p.(pc := Step(t, p, x).pc))
  {
    hide FindKey, KeyFree, PreflightStep, CommitStep, RestoreStep, RewindStep, DownloadStep;
  }

  lemma CommitMinds(t: Tables, p: Proc, x: Input)
    requires Mindful(t, p) && p.req.Commit?
    ensures Mindful(Step(t, p, x).t, p.(pc := Step(t, p, x).pc))
  {
    hide CommitBatch, Wins, Aborts, FreshVersionId, PreflightStep, UploadStep, RestoreStep, RewindStep, DownloadStep;
  }

  ghost predicate AllMindful(w: World) {
    forall pid | pid in w.procs :: Mindful(w.t, w.procs[pid])
  }

  lemma NextMinds(w: World, e: Event)
    requires Inv(w) && AllMindful(w)
    ensures AllMindful(Next(w, e))
  {
    hide Inv, Mindful, Grows, Step, SetMetadata, PathTaken;
    NextKeeps(w, e);
    var w' := Next(w, e);
    forall pid | pid in w'.procs ensures Mindful(w'.t, w'.procs[pid]) {
      if e.Run? && e.pid == pid && pid in w.procs {
        MindfulStep(w.t, w.procs[pid], e.x);
      } else if pid in w.procs {
        MindfulStays(w.t, w'.t, w.procs[pid]);
      } else {
        NewMinds(w'.t, w'.procs[pid].req);
      }
    }
  }

  lemma NewMinds(t: Tables, req: Request)
    ensures Mindful(t, Proc(req, FirstPc(req)))
  {
  }

  lemma {:induction false} AlwaysMindful(events: seq<Event>)
    ensures AllMindful(Runs(Start, events))
  {
    hide Inv, Next, Mindful;
    if events != [] {
      AlwaysMindful(events[..|events| - 1]);
      Reachable(events[..|events| - 1]);
      NextMinds(Runs(Start, events[..|events| - 1]), events[|events| - 1]);
    }
  }

  // ---------------------------------------------------------------- a new version

  /** The user's own limit if it is one, else the deployment's if it is one, else twenty. */
  function Limit(userSetting: Option<int>, deployment: Option<int>): int {
    if userSetting.Some? && 2 <= userSetting.value <= 500 then userSetting.value
    else if deployment.Some? && 2 <= deployment.value <= 500 then deployment.value
    else 20
  }

  function Max(a: nat, b: int): nat {
    if a < b then b else a
  }

  /** Version n of f is new on top of its chain, with this content and origin; of the older ones
      exactly 1..expired are expired and the rest archived. Nothing else has changed but what the
      request says of f's name and status, and its intent. */
  ghost predicate OnTop(t: Tables, t': Tables, f: FileId, n: nat, hash: Hash, from: Option<nat>, expired: nat) {
    && f in t.files && n == t.files[f].currentVersion + 1
    && t'.files.Keys == t.files.Keys && (forall g | g in t.files && g != f :: t'.files[g] == t.files[g])
    && t'.files[f].currentVersion == n && t'.files[f].currentHash == Some(hash)
    && t'.files[f].workspace == t.files[f].workspace && t'.files[f].relativePath == t.files[f].relativePath
    && t'.versions.Keys == t.versions.Keys + {(f, n)}
    && (forall k | k in t.versions && k.0 != f :: t'.versions[k] == t.versions[k])
    && (forall v: nat | 1 <= v < n ::
          (f, v) in t.versions && t'.versions[(f, v)] == t.versions[(f, v)].(status := if v <= expired then Expired else Archived))
    && t'.versions[(f, n)] == VersionRow(t'.versions[(f, n)].id, hash, n - 1, from, Current)
    && forall k | k in t.versions :: t.versions[k].id != t'.versions[(f, n)].id
  }

  lemma AdvancedOnTop(t: Tables, a: Advance)
    requires Consistent(t) && Inserts(t, a) && FreshVersionId(t.versions, a.versionId) && (a.expireThrough < 1 || a.expireThrough < a.base)
    ensures OnTop(t, Advanced(t, a), a.fileId, a.base + 1, a.hash, a.restoredFrom, Max(ExpiredEnd(t, a.fileId), a.expireThrough))
  {
    hide Consistent, ExpiredUpTo, Aged, AgedVersions;
    AdvancedKeys(t, a);
    forall v: nat | 1 <= v < a.base + 1
      ensures (a.fileId, v) in t.versions && Advanced(t, a).versions[(a.fileId, v)]
        == t.versions[(a.fileId, v)].(status := if v <= Max(ExpiredEnd(t, a.fileId), a.expireThrough) then Expired else Archived)
    {
      OlderAged(t, a, v);
    }
  }

  lemma AdvancedKeys(t: Tables, a: Advance)
    requires Consistent(t) && Inserts(t, a)
    ensures var t' := Advanced(t, a); var k := (a.fileId, a.base + 1);
      && t'.versions.Keys == t.versions.Keys + {k} && t'.files.Keys == t.files.Keys
      && t'.versions[k] == NewRow(a).(status := if a.base + 1 <= a.expireThrough then Expired else Current)
      && forall j | j in t.versions && j.0 != a.fileId :: t'.versions[j] == t.versions[j]
  {
    hide Consistent;
  }

  /** One older row ages to what the new end of the expired prefix says. */
  lemma OlderAged(t: Tables, a: Advance, v: nat)
    requires Consistent(t) && Inserts(t, a) && 1 <= v < a.base + 1
    ensures (a.fileId, v) in t.versions && Advanced(t, a).versions[(a.fileId, v)]
      == t.versions[(a.fileId, v)].(status := if v <= Max(ExpiredEnd(t, a.fileId), a.expireThrough) then Expired else Archived)
  {
    hide Linked, PointersReal, IntentsSettled, UniqueKeys, UniqueIds, ExpiredUpTo;
    ShapeAt(t, a.fileId);
    hide Consistent;
  }

  /** Rewriting what a request may say of its file, and intents, leaves the version on top. */
  lemma NamedOnTop(t: Tables, t1: Tables, t': Tables, f: FileId, n: nat, hash: Hash, from: Option<nat>, expired: nat)
    requires OnTop(t, t1, f, n, hash, from, expired)
    requires t'.versions == t1.versions && t'.files.Keys == t1.files.Keys && forall g | g in t1.files && g != f :: t'.files[g] == t1.files[g]
    requires t'.files[f] == t1.files[f].(logicalName := t'.files[f].logicalName, status := t'.files[f].status)
    ensures OnTop(t, t', f, n, hash, from, expired)
  {
  }

  lemma EndIs(t: Tables, f: FileId, e: nat)
    requires f in t.files && e <= t.files[f].currentVersion
    requires forall v: nat | 1 <= v <= t.files[f].currentVersion :: IsExpired(t, (f, v)) <==> v <= e
    ensures ExpiredEnd(t, f) == e
  {
    hide IsExpired, ExpiredUpTo;
    var end := ExpiredEnd(t, f);
    assert e > 0 ==> IsExpired(t, (f, e));
  }

  lemma OnTopExpires(t: Tables, t': Tables, f: FileId, n: nat, hash: Hash, from: Option<nat>, expired: nat)
    requires OnTop(t, t', f, n, hash, from, expired) && expired < n
    ensures ExpiredEnd(t', f) == expired
  {
    forall v: nat | 1 <= v <= n ensures IsExpired(t', (f, v)) <==> v <= expired {
      if v < n { assert (f, v) in t.versions; }
    }
    EndIs(t', f, expired);
  }

  /** The version a request's step created, by what the request asked for. */
  ghost predicate Made(t: Tables, t': Tables, req: Request, x: Input, c: Creation) {
    var (f, n) := (c.fileId, c.version);
    f in t.files && match req
    case Commit(user, i) =>
      && i in t.intents && t.intents[i].owner == user && t.intents[i].status == Uploaded
      && f == t.intents[i].fileId && n == t.intents[i].baseVersion + 1 && c.cause == ByIntent(i)
      && OnTop(t, t', f, n, t.intents[i].hash, t.intents[i].restoredFrom, Max(ExpiredEnd(t, f), n - Limit(x.userSetting, x.deployment)))
      && t'.files[f].status == Active && t'.files[f].logicalName == t.intents[i].logicalName
      && t'.intents == t.intents[i := t.intents[i].(status := Committed)]
    case Restore(_, g, v, base) =>
      && f == g && n == base + 1 && (f, v) in t.versions && c.cause == ByRestore
      && OnTop(t, t', f, n, t.versions[(f, v)].hash, Some(v), Max(ExpiredEnd(t, f), n - Limit(x.userSetting, x.deployment)))
      && t'.files[f].status == Active && t'.files[f].logicalName == t.files[f].logicalName && t'.intents == t.intents
    case RewindVersion(g, v) =>
      && f == g && (f, v) in t.versions && c.cause == ByRewind
      && OnTop(t, t', f, n, t.versions[(f, v)].hash, Some(v), ExpiredEnd(t, f))
      && t'.files[f].status == t.files[f].status && t'.files[f].logicalName == t.files[f].logicalName && t'.intents == t.intents
    case _ => false
  }

  lemma CommitMakes(t: Tables, user: UserId, i: IntentId, seen: Seen, file: FileRow, x: Input)
    requires Consistent(t) && Mindful(t, Proc(Commit(user, i), CmBatch(seen, file)))
    requires CommitStep(t, user, i, CmBatch(seen, file), x).created.Some?
    ensures var o := CommitStep(t, user, i, CmBatch(seen, file), x); Made(t, o.t, Commit(user, i), x, o.created.value)
  {
    hide OnTop, Consistent, AgedVersions, PathTaken, FreshVersionId, ExpiredUpTo, InChainAbove;
    var a := CommitAdvance(seen.row, file, x);
    StillUploaded(t, i, a);
    AdvancedOnTop(t, a);
    var t' := CommitBatch(t, a, i, user, seen.row.logicalName);
    NamedOnTop(t, Advanced(t, a), t', a.fileId, a.base + 1, a.hash, a.restoredFrom, Max(ExpiredEnd(t, a.fileId), a.expireThrough));
  }

  /** At its base, an intent that was uploaded has not ended. */
  lemma StillUploaded(t: Tables, i: IntentId, a: Advance)
    requires Consistent(t) && i in t.intents && AtBase(t.files, a.fileId, a.workspace, a.base)
    requires t.intents[i].fileId == a.fileId && t.intents[i].baseVersion == a.base
    ensures t.intents[i].status !in {Committed, Abandoned}
  {
    assert IntentsSettled(t);
  }

  lemma RestoreMakes(t: Tables, user: UserId, f: FileId, version: nat, base: nat, file: FileRow, source: VersionRow, x: Input)
    requires Consistent(t) && ValidPc(t, Restore(user, f, version, base), RsBatch(file, source))
    requires RestoreStep(t, f, version, base, RsBatch(file, source), x).created.Some?
    ensures var o := RestoreStep(t, f, version, base, RsBatch(file, source), x); Made(t, o.t, Restore(user, f, version, base), x, o.created.value)
  {
    hide OnTop, Consistent, AgedVersions, PathTaken, FreshVersionId, ExpiredUpTo;
    var a := RestoreAdvance(f, version, file, source, x);
    AdvancedOnTop(t, a);
    var t' := RestoreBatch(t, a);
    NamedOnTop(t, Advanced(t, a), t', a.fileId, a.base + 1, a.hash, a.restoredFrom, Max(ExpiredEnd(t, a.fileId), a.expireThrough));
  }

  lemma RewindMakes(t: Tables, f: FileId, version: nat, file: FileRow, source: VersionRow, x: Input)
    requires Consistent(t) && ValidPc(t, RewindVersion(f, version), RwBatch(file, source))
    requires RewindStep(t, f, version, RwBatch(file, source), x).created.Some?
    ensures var o := RewindStep(t, f, version, RwBatch(file, source), x); Made(t, o.t, RewindVersion(f, version), x, o.created.value)
  {
    hide OnTop, AgedVersions, PathTaken, FreshVersionId, ExpiredUpTo, RetentionShape, IntentsSettled, UniqueIds, UniqueKeys, RewindBatch, Linked;
    var a := RestoreAdvance(f, version, file, source, x);
    RewindBatchIsGuarded(t, a);
    var b := a.(expireThrough := -1);
    assert Inserts(t, b);
    AdvancedOnTop(t, b);
  }

  lemma StepMakes(t: Tables, p: Proc, x: Input)
    requires Consistent(t) && ValidPc(t, p.req, p.pc) && Mindful(t, p) && Step(t, p, x).created.Some?
    ensures Made(t, Step(t, p, x).t, p.req, x, Step(t, p, x).created.value)
  {
    hide Consistent, ValidPc, Mindful, Made;
    match p.req
    case Commit(user, i) => CommitMakes(t, user, i, p.pc.seen, p.pc.file, x);
    case Restore(user, f, version, base) => RestoreMakes(t, user, f, version, base, p.pc.file, p.pc.source, x);
    case RewindVersion(f, version) => RewindMakes(t, f, version, p.pc.file, p.pc.source, x);
    case _ =>
  }

  lemma LastEvent(events: seq<Event>, e: Event)
    ensures Runs(Start, events + [e]) == Next(Runs(Start, events), e)
  {
    assert (events + [e])[..|events + [e]| - 1] == events;
  }

  lemma InvParts(w: World)
    requires Inv(w)
    ensures Consistent(w.t) && forall pid | pid in w.procs :: ValidPc(w.t, w.procs[pid].req, w.procs[pid].pc)
  {
    hide Consistent, ValidPc;
  }

  /** Whenever a version comes to be, in any run, it is the one its commit, restore or rewind asked for,
      and nothing else happens to the tables. */
  lemma VersionsAreMade(events: seq<Event>, e: Event)
    requires Runs(Start, events + [e]).created != Runs(Start, events).created
    ensures var w := Runs(Start, events); var w' := Runs(Start, events + [e]);
      && e.Run? && e.pid in w.procs && |w'.created| == |w.created| + 1 && w'.created[..|w.created|] == w.created
      && Made(w.t, w'.t, w.procs[e.pid].req, e.x, w'.created[|w.created|])
  {
    hide Inv, Mindful, Made, Step, Consistent, ValidPc;
    LastEvent(events, e);
    Reachable(events);
    AlwaysMindful(events);
    InvParts(Runs(Start, events));
    StepMakes(Runs(Start, events).t, Runs(Start, events).procs[e.pid], e.x);
  }

  /** A commit or a restore expires exactly what lies as far back as the limit of its user, or what had
      expired before; a rewind expires nothing. */
  lemma RetentionExactly(events: seq<Event>, e: Event)
    requires Runs(Start, events + [e]).created != Runs(Start, events).created
    ensures var w := Runs(Start, events); var w' := Runs(Start, events + [e]);
      |w'.created| == |w.created| + 1 && e.Run?
      && var (f, n) := (w'.created[|w.created|].fileId, w'.created[|w.created|].version);
         var kept := Limit(e.x.userSetting, e.x.deployment);
         && f in w.t.files && f in w'.t.files
         && ExpiredEnd(w'.t, f) == (if w'.created[|w.created|].cause.ByRewind? then ExpiredEnd(w.t, f) else Max(ExpiredEnd(w.t, f), n - kept))
         && (!w'.created[|w.created|].cause.ByRewind? ==> forall v: nat | 1 <= v <= n - kept :: IsExpired(w'.t, (f, v)))
  {
    hide Inv, Made, Next, Runs, IsExpired, ExpiredUpTo, Limit, Consistent;
    VersionsAreMade(events, e);
    var w, w' := Runs(Start, events), Runs(Start, events + [e]);
    Reachable(events);
    InvParts(w);
    MadeExpires(w.t, w'.t, w.procs[e.pid].req, e.x, w'.created[|w.created|]);
  }

  lemma MadeExpires(t: Tables, t': Tables, req: Request, x: Input, c: Creation)
    requires Consistent(t) && Made(t, t', req, x, c)
    ensures c.fileId in t.files && c.fileId in t'.files
    ensures ExpiredEnd(t', c.fileId) ==
      if c.cause.ByRewind? then ExpiredEnd(t, c.fileId) else Max(ExpiredEnd(t, c.fileId), c.version - Limit(x.userSetting, x.deployment))
    ensures !c.cause.ByRewind? ==> forall v: nat | 1 <= v <= c.version - Limit(x.userSetting, x.deployment) :: IsExpired(t', (c.fileId, v))
  {
    hide Consistent, OnTop, IsExpired, ExpiredUpTo;
    var (f, n) := (c.fileId, c.version);
    EndBelow(t, f);
    match req {
      case Commit(user, i) =>
        OnTopIs(t, t', f, n, t.intents[i].hash, t.intents[i].restoredFrom, Max(ExpiredEnd(t, f), n - Limit(x.userSetting, x.deployment)));
      case Restore(_, _, v, _) =>
        OnTopIs(t, t', f, n, t.versions[(f, v)].hash, Some(v), Max(ExpiredEnd(t, f), n - Limit(x.userSetting, x.deployment)));
      case RewindVersion(_, v) =>
        OnTopIs(t, t', f, n, t.versions[(f, v)].hash, Some(v), ExpiredEnd(t, f));
    }
  }

  lemma EndBelow(t: Tables, f: FileId)
    requires Consistent(t) && f in t.files
    ensures ExpiredEnd(t, f) == 0 || ExpiredEnd(t, f) + 2 <= t.files[f].currentVersion
  {
    hide IntentsSettled, UniqueKeys, UniqueIds, Linked, PointersReal;
    ShapeAt(t, f);
  }

  lemma OnTopIs(t: Tables, t': Tables, f: FileId, n: nat, hash: Hash, from: Option<nat>, expired: nat)
    requires OnTop(t, t', f, n, hash, from, expired) && f in t.files && expired < Max(t.files[f].currentVersion + 1, n)
    ensures f in t'.files && ExpiredEnd(t', f) == expired
    ensures forall v: nat | 1 <= v <= expired :: IsExpired(t', (f, v))
  {
    OnTopExpires(t, t', f, n, hash, from, expired);
    hide ExpiredUpTo;
  }

  // ---------------------------------------------------------------- everything else

  /** Without a new version no version row changes, and no pointer moves. */
  lemma NothingElseMoves(events: seq<Event>, e: Event)
    requires Runs(Start, events + [e]).created == Runs(Start, events).created
    ensures var t := Runs(Start, events).t; var t' := Runs(Start, events + [e]).t;
      && t'.versions == t.versions
      && forall f | f in t.files :: f in t'.files && t'.files[f].currentVersion == t.files[f].currentVersion
           && t'.files[f].currentHash == t.files[f].currentHash && t'.files[f].workspace == t.files[f].workspace
           && (!e.Metadata? ==> t'.files[f] == t.files[f])
  {
    hide Inv, Step;
    LastEvent(events, e);
    var w := Runs(Start, events);
    Reachable(events);
    InvParts(w);
    if e.Run? && e.pid in w.procs { StillVersions(w.t, w.procs[e.pid], e.x); }
  }

  lemma StillVersions(t: Tables, p: Proc, x: Input)
    requires Step(t, p, x).created.None?
    ensures Step(t, p, x).t.versions == t.versions && forall f | f in t.files :: f in Step(t, p, x).t.files && Step(t, p, x).t.files[f] == t.files[f]
  {
    hide FindKey, KeyFree, Wins, Aborts, FreshVersionId, PathTaken, SamePath, CommitBatch, RestoreBatch, RewindBatch;
  }

  /** How one intent may move in one step of a request. */
  ghost predicate Moves(t: Tables, t': Tables, req: Request, i: IntentId)
    requires i in t.intents && i in t'.intents
  {
    var (was, now) := (t.intents[i], t'.intents[i]);
    now == was.(status := now.status) && match (was.status, now.status)
      case (Reserved, Uploaded) =>
        req == if was.backend == UserGroup then Receipt(was.owner, i, was.hash) else Upload(was.owner, i, was.hash)
      case (Uploaded, Committed) => req == Commit(was.owner, i) && was.fileId in t.files && t.files[was.fileId].currentVersion == was.baseVersion
      case (from, Abandoned) => req == Commit(was.owner, i) && from != Reserved && InChainAbove(t, was.fileId, was.baseVersion, was.hash)
      case _ => false
  }

  /** An intent becomes uploaded only by its owner's request that brought its content over its own
      channel, committed only by its owner's commit that makes its version, and abandoned only by one
      that finds its content in the file's chain already. Whatever else a request says of it never changes. */
  lemma IntentsMove(events: seq<Event>, e: Event, i: IntentId)
    requires i in Runs(Start, events).t.intents
    ensures var w := Runs(Start, events); var w' := Runs(Start, events + [e]);
      && i in w'.t.intents
      && (w'.t.intents[i] == w.t.intents[i] || (e.Run? && e.pid in w.procs && Moves(w.t, w'.t, w.procs[e.pid].req, i)))
  {
    hide Inv, Mindful, Moves, Step, Consistent, ValidPc;
    LastEvent(events, e);
    Reachable(events);
    AlwaysMindful(events);
    var w := Runs(Start, events);
    InvParts(w);
    if e.Run? && e.pid in w.procs { StepMoves(w.t, w.procs[e.pid], e.x, i); }
  }

  lemma StepMoves(t: Tables, p: Proc, x: Input, i: IntentId)
    requires Consistent(t) && ValidPc(t, p.req, p.pc) && Mindful(t, p) && i in t.intents
    ensures var t' := Step(t, p, x).t; i in t'.intents && (t'.intents[i] == t.intents[i] || Moves(t, t', p.req, i))
  {
    if Step(t, p, x).created.Some? {
      hide Consistent, ValidPc, Mindful, Step, OnTop;
      StepMakes(t, p, x);
    } else if p.pc.CmAbandon? {
      hide Consistent, FilesGrow, VersionsGrow;
      AbandonMoves(t, p, x, i);
    } else {
      hide Consistent, ValidPc, Step, Mindful, Moves;
      if p.req.Upload? || p.req.Receipt? { StoringMoves(t, p, x, i); } else { OtherMoves(t, p, x, i); }
    }
  }

  lemma AbandonMoves(t: Tables, p: Proc, x: Input, i: IntentId)
    requires Consistent(t) && ValidPc(t, p.req, p.pc) && Mindful(t, p) && i in t.intents && p.pc.CmAbandon?
    ensures var t' := Step(t, p, x).t; i in t'.intents && (t'.intents[i] == t.intents[i] || Moves(t, t', p.req, i))
  {
    hide Consistent;
    var row := p.pc.seen.row;
    assert InChainAbove(t, row.fileId, row.baseVersion, row.hash) by {
      assert t.versions[(row.fileId, p.pc.file.currentVersion)].hash == row.hash;
    }
  }

  lemma StoringMoves(t: Tables, p: Proc, x: Input, i: IntentId)
    requires Mindful(t, p) && i in t.intents && (p.req.Upload? || p.req.Receipt?)
    ensures var t' := Step(t, p, x).t; i in t'.intents && (t'.intents[i] == t.intents[i] || Moves(t, t', p.req, i))
  {
    hide InChainAbove, PreflightStep, CommitStep, RestoreStep, RewindStep, DownloadStep;
  }

  lemma OtherMoves(t: Tables, p: Proc, x: Input, i: IntentId)
    requires Mindful(t, p) && i in t.intents && !p.pc.CmAbandon? && Step(t, p, x).created.None? && !p.req.Upload? && !p.req.Receipt?
    ensures var t' := Step(t, p, x).t; i in t'.intents && t'.intents[i] == t.intents[i]
  {
    hide FindKey, Wins, Aborts, FreshVersionId, PathTaken, SamePath, CommitBatch, RestoreBatch, RewindBatch, KeyFree, InChainAbove, UploadStep;
  }

  /** The only way an intent or a file comes to be is a preflight that asks for it: the intent under a
      key its user does not have yet, for a file standing no lower than its base. */
  ghost predicate Asked(t: Tables, t': Tables, req: Request) {
    && (forall i | i in t'.intents && i !in t.intents ::
          && req.Preflight? && KeyFree(t.intents, req.q.user, req.q.key)
          && var q := req.q; var row := t'.intents[i];
             && row == IntentRow(q.key, row.fileId, q.user, row.workspace, q.logicalName, q.base, q.hash, q.restoredFrom, q.backend, Reserved)
             && ForFile(q, row.fileId) && row.fileId in t.files && q.base <= t.files[row.fileId].currentVersion
             && row.workspace == t.files[row.fileId].workspace)
    && (forall f | f in t'.files && f !in t.files ::
          && req.Preflight?
          && var q := req.q; ForFile(q, f) && t'.files[f] == FileRow(t'.files[f].workspace, q.logicalName, q.relativePath, Active, 0, None))
  }

  lemma OnlyAsked(events: seq<Event>, e: Event)
    ensures var w := Runs(Start, events); var w' := Runs(Start, events + [e]);
      if e.Run? && e.pid in w.procs then Asked(w.t, w'.t, w.procs[e.pid].req)
      else w'.t.intents == w.t.intents && w'.t.files.Keys == w.t.files.Keys
  {
    hide Inv, Step, Asked, Consistent, ValidPc;
    LastEvent(events, e);
    Reachable(events);
    var w := Runs(Start, events);
    InvParts(w);
    if e.Run? && e.pid in w.procs { StepAsked(w.t, w.procs[e.pid], e.x); }
  }

  lemma StepAsked(t: Tables, p: Proc, x: Input)
    requires ValidPc(t, p.req, p.pc)
    ensures Asked(t, Step(t, p, x).t, p.req)
  {
    hide Asked, PreflightStep, ValidPc;
    if p.req.Preflight? { PreflightAsked(t, p.req.q, p.pc, x); } else { OthersAskNothing(t, p, x); }
  }

  lemma PreflightAsked(t: Tables, q: PreflightInput, pc: Pc, x: Input)
    requires ValidPc(t, Preflight(q), pc)
    ensures Asked(t, PreflightStep(t, q, pc, x).t, Preflight(q))
  {
    hide FindKey, KeyFree, PathTaken, SamePath, InChainAbove, PairReal;
  }

  lemma OthersAskNothing(t: Tables, p: Proc, x: Input)
    requires !p.req.Preflight?
    ensures Asked(t, Step(t, p, x).t, p.req)
  {
    hide PreflightStep, FindKey, KeyFree, Aborts, FreshVersionId, PathTaken, SamePath, AgedVersions;
  }

  // ---------------------------------------------------------------- what needs a yes

  /** Where a handler asks for access, for the lease, or for the storage before it goes on. */
  ghost predicate AsksLeave(t: Tables, p: Proc) {
    match (p.req, p.pc)
    case (Preflight(q), PfFile) => true
    case (Preflight(q), PfKey(_, _)) => KeyFree(t.intents, q.user, q.key)
    case (Preflight(q), PfReplayFile(_, _)) => true
    case (Preflight(q), PfCreate(_)) => true
    case (Preflight(q), PfRead(_)) => true
    case (Preflight(q), PfDecide(_, file, _)) => file.currentVersion > 0
    case (Preflight(q), PfFresh(_, _)) => true
    case (Upload(_, _, _), UpFile(_)) => true
    case (Upload(_, _, _), UpStore(_)) => true
    case (Commit(_, _), CmFile(_)) => true
    case (Commit(_, _), CmAnswer(_)) => true
    case (Restore(_, _, _, _), RsFile) => true
    case (Restore(_, _, _, _), RsSource(_)) => true
    case (RewindVersion(_, _), RwFile) => true
    case (RewindVersion(_, _), RwSource(_)) => true
    case (Download(_), DlFile) => true
    case _ => false
  }

  /** Without leave the request ends there, and nothing has changed. */
  lemma NothingWithoutLeave(t: Tables, p: Proc, x: Input)
    requires AsksLeave(t, p) && !x.ok
    ensures Step(t, p, x).t == t && Step(t, p, x).created == None && Step(t, p, x).pc.Done? && Step(t, p, x).pc.reply.Failed?
  {
    hide Wins, Aborts, FreshVersionId, CommitBatch, RestoreBatch, RewindBatch, SamePath, PathTaken;
  }
}
