/** What a repeated idempotency key is answered with, exactly: over every interleaving, which lookups
    lead to the answers for an ended intent. */
module KeyReplays {
  import opened Wrappers
  import opened CloudTables
  import opened CloudHandlers
  import opened CloudHistory

  /** One statement of a preflight: the tables it ran on and what the environment gave it. */
  datatype Moment = Moment(t: Tables, x: Input)

  /** Where a preflight stands after these statements of its own. */
  ghost function Trail(q: PreflightInput, ms: seq<Moment>): Pc {
    if ms == [] then PfFile
    else PreflightStep(ms[|ms| - 1].t, q, Trail(q, ms[..|ms| - 1]), ms[|ms| - 1].x).pc
  }

  /** The tables its last statement left. */
  ghost function Left(q: PreflightInput, ms: seq<Moment>): Tables
    requires ms != []
  {
    PreflightStep(ms[|ms| - 1].t, q, Trail(q, ms[..|ms| - 1]), ms[|ms| - 1].x).t
  }

  /** Between its statements anybody may have executed anything, which only makes the tables grow. */
  ghost predicate Real(q: PreflightInput, ms: seq<Moment>) {
    ms == [] ||
    (Real(q, ms[..|ms| - 1]) && Consistent(ms[|ms| - 1].t) && (|ms| > 1 ==> Grows(Left(q, ms[..|ms| - 1]), ms[|ms| - 1].t)))
  }

  /** The intent under the key is the one this preflight would reserve, in this status. */
  ghost predicate Matches(t: Tables, q: PreflightInput, f: FileId, status: IntentStatus) {
    var found := FindKey(t, q.user, q.key);
    found.Some? && found.value.row.fileId == f && found.value.row.hash == q.hash && found.value.row.baseVersion == q.base
    && found.value.row.backend == q.backend && found.value.row.status == status
  }

  /** The first lookup, always the second statement, found no intent of this owner and key. */
  ghost predicate FirstFoundNone(q: PreflightInput, ms: seq<Moment>) {
    |ms| >= 2 && Trail(q, ms[..1]).PfKey? && KeyFree(ms[1].t.intents, q.user, q.key)
  }

  /** The second lookup took place and found the matching intent in this status. */
  ghost predicate SecondFound(q: PreflightInput, ms: seq<Moment>, status: IntentStatus) {
    exists j | 0 <= j < |ms| :: SecondFoundAt(q, ms, j, status)
  }

  ghost predicate SecondFoundAt(q: PreflightInput, ms: seq<Moment>, j: nat, status: IntentStatus)
    requires j < |ms|
  {
    Trail(q, ms[..j]).PfKeyAgain? && Matches(ms[j].t, q, Trail(q, ms[..j]).f, status)
  }

  /** It found the intent committed, and the access check of the statement after it said yes. */
  ghost predicate ReadAgain(q: PreflightInput, ms: seq<Moment>) {
    exists j | 0 <= j < |ms| :: ReadAgainAt(q, ms, j)
  }

  ghost predicate ReadAgainAt(q: PreflightInput, ms: seq<Moment>, j: nat)
    requires j < |ms|
  {
    SecondFoundAt(q, ms, j, Committed) && j + 1 < |ms| && ms[j + 1].x.ok
  }

  // ---------------------------------------------------------------- along a trail

  lemma {:induction false} TrailIsValid(q: PreflightInput, ms: seq<Moment>)
    requires Real(q, ms) && ms != []
    ensures ValidPc(Left(q, ms), Preflight(q), Trail(q, ms)) && Consistent(Left(q, ms))
  {
    hide Consistent, ValidPc, PreflightStep, Grows, StepOk;
    var n := |ms| - 1;
    BeforeLast(q, ms);
    PreflightKeeps(ms[n].t, q, Trail(q, ms[..n]), ms[n].x);
    StepOkIs(ms[n].t, Preflight(q), PreflightStep(ms[n].t, q, Trail(q, ms[..n]), ms[n].x));
  }

  /** What the last statement finds is valid on the tables it runs on. */
  lemma {:induction false} BeforeLast(q: PreflightInput, ms: seq<Moment>)
    requires Real(q, ms) && ms != []
    ensures ValidPc(ms[|ms| - 1].t, Preflight(q), Trail(q, ms[..|ms| - 1])) && Consistent(ms[|ms| - 1].t)
    decreases |ms|, 0
  {
    hide Consistent, ValidPc, PreflightStep, Grows, StepOk;
    var n := |ms| - 1;
    if n > 0 {
      var before := ms[..n];
      BeforeLast(q, before);
      var last := before[n - 1];
      PreflightKeeps(last.t, q, Trail(q, before[..n - 1]), last.x);
      StepOkIs(last.t, Preflight(q), PreflightStep(last.t, q, Trail(q, before[..n - 1]), last.x));
      ValidStays(Left(q, before), ms[n].t, Preflight(q), Trail(q, before));
    } else {
      FirstIsValid(ms[n].t, Preflight(q));
    }
  }

  predicate AnsweredCommitted(pc: Pc) {
    pc.Done? && pc.reply.AlreadyCommitted?
  }

  /** Positions that are only reached when the first lookup found nothing. */
  predicate AfterNone(pc: Pc) {
    match pc
    case PfCreate(_) => true
    case PfRead(_) => true
    case PfDecide(_, _, replayed) => replayed.None?
    case PfKeyAgain(_, _) => true
    case PfInsert(_, _) => true
    case PfFresh(_, _) => true
    case Done(reply) => reply.AlreadyCommitted? || reply == Failed(IntentAbandoned)
    case _ => false
  }

  /** One statement, by what stood before it. */
  lemma OneMoment(t: Tables, q: PreflightInput, pc: Pc, x: Input)
    requires Consistent(t) && ValidPc(t, Preflight(q), pc)
    ensures var pc' := PreflightStep(t, q, pc, x).pc;
      && (AfterNone(pc') ==> AfterNone(pc) || (pc.PfKey? && KeyFree(t.intents, q.user, q.key)))
      && (pc'.PfFresh? <==> pc.PfKeyAgain? && Matches(t, q, pc.f, Committed))
      && (AnsweredCommitted(pc') <==> AnsweredCommitted(pc) || (pc.PfFresh? && x.ok))
      && (pc' == Done(Failed(IntentAbandoned)) <==>
            pc == Done(Failed(IntentAbandoned)) || (pc.PfKeyAgain? && Matches(t, q, pc.f, Abandoned)))
  {
    hide Consistent, SeenFile, ForFile, ReplyHolds, InChainAbove, SameIntent, PairReal, SamePath, PathTaken;
    if pc.PfFresh? { assert pc.f in t.files; }
  }

  lemma PfKeyIsSecond(q: PreflightInput, ms: seq<Moment>)
    requires Trail(q, ms).PfKey? && ms != []
    ensures |ms| == 1
  {
    hide Grows;
    var n := |ms| - 1;
    assert Trail(q, ms[..n]).PfFile? by { hide FindKey; }
    if n > 0 { NeverFileAgain(q, ms[..n]); }
  }

  lemma NeverFileAgain(q: PreflightInput, ms: seq<Moment>)
    requires ms != []
    ensures !Trail(q, ms).PfFile?
  {
    hide FindKey;
  }

  lemma {:induction false} TrailTells(q: PreflightInput, ms: seq<Moment>)
    requires Real(q, ms)
    ensures AfterNone(Trail(q, ms)) ==> FirstFoundNone(q, ms)
    ensures Trail(q, ms).PfFresh? <==> ms != [] && SecondFoundAt(q, ms, |ms| - 1, Committed)
    ensures AnsweredCommitted(Trail(q, ms)) <==> ReadAgain(q, ms)
    ensures Trail(q, ms) == Done(Failed(IntentAbandoned)) <==> SecondFound(q, ms, Abandoned)
  {
    hide PreflightStep, Consistent, ValidPc, Grows, Matches, AnsweredCommitted, AfterNone;
    if ms == [] {
      NothingYet();
    } else {
      var n := |ms| - 1;
      var before := ms[..n];
      TrailTells(q, before);
      BeforeLast(q, ms);
      OneMoment(ms[n].t, q, Trail(q, before), ms[n].x);
      if AfterNone(Trail(q, ms)) {
        if AfterNone(Trail(q, before)) {
          assert before[..1] == ms[..1];
        } else {
          FileFirst();
          PfKeyIsSecond(q, before);
          assert ms[..1] == before;
        }
      }
      SecondFoundLonger(q, ms, Abandoned);
      ReadAgainLonger(q, ms);
    }
  }

  lemma NothingYet()
    ensures !AfterNone(PfFile) && !AnsweredCommitted(PfFile)
  {
  }

  lemma FileFirst()
    ensures !PfFile.PfKey?
  {
  }

  lemma SecondFoundLonger(q: PreflightInput, ms: seq<Moment>, status: IntentStatus)
    requires ms != []
    ensures var n := |ms| - 1;
      SecondFound(q, ms, status) <==> SecondFound(q, ms[..n], status) || SecondFoundAt(q, ms, n, status)
  {
    hide Trail, Matches;
    var n := |ms| - 1;
    forall j | 0 <= j < n ensures SecondFoundAt(q, ms, j, status) <==> SecondFoundAt(q, ms[..n], j, status) {
      assert ms[..n][..j] == ms[..j];
    }
  }

  lemma ReadAgainLonger(q: PreflightInput, ms: seq<Moment>)
    requires ms != []
    ensures var n := |ms| - 1; var before := ms[..n];
      ReadAgain(q, ms) <==> ReadAgain(q, before) || (before != [] && SecondFoundAt(q, before, n - 1, Committed) && ms[n].x.ok)
  {
    hide Trail, Matches;
    var n := |ms| - 1;
    forall j | 0 <= j < n ensures SecondFoundAt(q, ms, j, Committed) <==> SecondFoundAt(q, ms[..n], j, Committed) {
      assert ms[..n][..j] == ms[..j];
    }
    forall j | 0 <= j < n - 1 ensures ReadAgainAt(q, ms, j) <==> ReadAgainAt(q, ms[..n], j) {
    }
    if n > 0 {
      assert SecondFoundAt(q, ms, n - 1, Committed) <==> SecondFoundAt(q, ms[..n], n - 1, Committed);
      assert ReadAgainAt(q, ms, n - 1) <==> SecondFoundAt(q, ms, n - 1, Committed) && ms[n].x.ok;
    }
  }

  // ---------------------------------------------------------------- main results

  /** A preflight is answered "committed", or "abandoned", if and only if its first lookup found no
      intent under the key and its second one found the matching intent in that status; for
      "committed" the caller must also still have access when the file is read once more. So an
      intent that the first lookup sees, in whatever status, excludes both answers. */
  lemma EndedAnswersExactly(q: PreflightInput, ms: seq<Moment>)
    requires Real(q, ms) && Trail(q, ms).Done?
    ensures Trail(q, ms).reply.AlreadyCommitted? <==> FirstFoundNone(q, ms) && ReadAgain(q, ms)
    ensures Trail(q, ms).reply == Failed(IntentAbandoned) <==> FirstFoundNone(q, ms) && SecondFound(q, ms, Abandoned)
  {
    hide Trail, Real, FirstFoundNone, SecondFound, ReadAgain, Matches, PathTaken;
    TrailTells(q, ms);
  }

  /** Every preflight of every run of the worker left such a trail. */
  lemma {:induction false} TrailOf(events: seq<Event>, pid: Pid, q: PreflightInput) returns (ms: seq<Moment>)
    requires pid in Runs(Start, events).procs && Runs(Start, events).procs[pid].req == Preflight(q)
    ensures Real(q, ms) && Trail(q, ms) == Runs(Start, events).procs[pid].pc
    ensures ms != [] ==> Grows(Left(q, ms), Runs(Start, events).t)
  {
    hide PreflightStep, Grows, Consistent, Inv, Left, CloudHandlers.Step;
    var n := |events| - 1;
    var w := Runs(Start, events[..n]);
    var e := events[n];
    Reachable(events[..n]);
    NextKeeps(w, e);
    if pid !in w.procs {
      return [];
    }
    ms := TrailOf(events[..n], pid, q);
    if e.Run? && e.pid == pid {
      InvIsConsistent(w);
      ms := OneMore(w, pid, q, e.x, ms);
    } else if ms != [] {
      GrowsTrans(Left(q, ms), w.t, Next(w, e).t);
    }
  }

  lemma InvIsConsistent(w: World)
    requires Inv(w)
    ensures Consistent(w.t)
  {
  }

  lemma OneMore(w: World, pid: Pid, q: PreflightInput, x: Input, before: seq<Moment>) returns (ms: seq<Moment>)
    requires pid in w.procs && w.procs[pid].req == Preflight(q) && Consistent(w.t)
    requires Real(q, before) && Trail(q, before) == w.procs[pid].pc && (before != [] ==> Grows(Left(q, before), w.t))
    ensures var w' := Next(w, Run(pid, x));
      Real(q, ms) && ms != [] && Trail(q, ms) == w'.procs[pid].pc && Grows(Left(q, ms), w'.t)
  {
    hide PreflightStep, Grows, Consistent;
    ms := before + [Moment(w.t, x)];
    assert ms[..|ms| - 1] == before;
    GrowsRefl(Next(w, Run(pid, x)).t);
  }

  // ---------------------------------------------------------------- a run answered "abandoned"

  const TwinKey := Key(7, 0, Some(9), ForRestore(0))
  const TwinInput := PreflightInput(1, Some(7), Some(0), 0, "a", "a", 9, 0, TwinKey, Bot, None)
  const TwinStep := Input(true, 101, None, None)

  function TwinIntent(status: IntentStatus): IntentRow {
    IntentRow(TwinKey, 7, 1, 0, "a", 0, 9, None, Bot, status)
  }

  /** The late intent and another one for the same content under another key. */
  function TwinTables(late: IntentStatus, twin: IntentStatus): Tables {
    LateEmpty.(intents := map[100 := LateIntent(late), 101 := TwinIntent(twin)])
  }

  lemma DriveBy(w: World, pid: Pid, x: Input, n: nat, t: Tables, pc: Pc, t': Tables, pc': Pc)
    requires pid in w.procs && Drive(w, pid, x, n) == Only(w, pid, t, pc)
    requires CloudHandlers.Step(t, w.procs[pid].(pc := pc), x) == Stay(t', pc')
    ensures Drive(w, pid, x, n + 1) == Only(w, pid, t', pc')
  {
    hide CloudHandlers.Step;
  }

  lemma TwinPreflightSteps()
    ensures var t := LateTables(Uploaded);
      && PreflightStep(t, TwinInput, PfFile, TwinStep) == Stay(t, PfKey(Some(LateFile), 0))
      && PreflightStep(t, TwinInput, PfKey(Some(LateFile), 0), TwinStep) == Stay(t, PfDecide(7, LateFile, None))
      && PreflightStep(t, TwinInput, PfDecide(7, LateFile, None), TwinStep) == Stay(t, PfKeyAgain(7, LateFile))
      && PreflightStep(t, TwinInput, PfKeyAgain(7, LateFile), TwinStep) == Stay(t, PfInsert(7, LateFile))
      && PreflightStep(t, TwinInput, PfInsert(7, LateFile), TwinStep) == Stay(TwinTables(Uploaded, Reserved), Done(UploadRequired(7, 101)))
  {
    assert FindKey(LateTables(Uploaded), 1, TwinKey) == None;
  }

  lemma TwinReserves(w: World)
    requires 5 in w.procs && w.procs[5] == Proc(Preflight(TwinInput), PfFile) && w.t == LateTables(Uploaded)
    ensures Drive(w, 5, TwinStep, 5) == Only(w, 5, TwinTables(Uploaded, Reserved), Done(UploadRequired(7, 101)))
  {
    hide PreflightStep, LateTables, TwinTables;
    TwinPreflightSteps();
    assert Drive(w, 5, TwinStep, 0) == Only(w, 5, w.t, PfFile);
    DriveBy(w, 5, TwinStep, 0, w.t, PfFile, w.t, PfKey(Some(LateFile), 0));
    DriveBy(w, 5, TwinStep, 1, w.t, PfKey(Some(LateFile), 0), w.t, PfDecide(7, LateFile, None));
    DriveBy(w, 5, TwinStep, 2, w.t, PfDecide(7, LateFile, None), w.t, PfKeyAgain(7, LateFile));
    DriveBy(w, 5, TwinStep, 3, w.t, PfKeyAgain(7, LateFile), w.t, PfInsert(7, LateFile));
    DriveBy(w, 5, TwinStep, 4, w.t, PfInsert(7, LateFile), TwinTables(Uploaded, Reserved), Done(UploadRequired(7, 101)));
  }

  lemma TwinUploadSteps()
    ensures var t := TwinTables(Uploaded, Reserved); var seen := Seen(101, TwinIntent(Reserved));
      && UploadStep(t, 1, 101, 9, UpIntent, TwinStep) == Stay(t, UpFile(seen))
      && UploadStep(t, 1, 101, 9, UpFile(seen), TwinStep) == Stay(t, UpStore(seen))
      && UploadStep(t, 1, 101, 9, UpStore(seen), TwinStep) == Stay(t, UpSave(seen))
      && UploadStep(t, 1, 101, 9, UpSave(seen), TwinStep) == Stay(TwinTables(Uploaded, Uploaded), Done(UploadOk(101)))
  {
    assert TwinTables(Uploaded, Uploaded).intents[101] != TwinTables(Uploaded, Reserved).intents[101];
    assert MarkUploaded(TwinTables(Uploaded, Reserved), 101, 1) == TwinTables(Uploaded, Uploaded);
  }

  lemma TwinUploads(w: World)
    requires 6 in w.procs && w.procs[6] == Proc(Upload(1, 101, 9), UpIntent) && w.t == TwinTables(Uploaded, Reserved)
    ensures Drive(w, 6, TwinStep, 4) == Only(w, 6, TwinTables(Uploaded, Uploaded), Done(UploadOk(101)))
  {
    hide UploadStep, TwinTables, TwinIntent;
    TwinUploadSteps();
    var seen := Seen(101, TwinIntent(Reserved));
    assert Drive(w, 6, TwinStep, 0) == Only(w, 6, w.t, UpIntent);
    DriveBy(w, 6, TwinStep, 0, w.t, UpIntent, w.t, UpFile(seen));
    DriveBy(w, 6, TwinStep, 1, w.t, UpFile(seen), w.t, UpStore(seen));
    DriveBy(w, 6, TwinStep, 2, w.t, UpStore(seen), w.t, UpSave(seen));
    DriveBy(w, 6, TwinStep, 3, w.t, UpSave(seen), TwinTables(Uploaded, Uploaded), Done(UploadOk(101)));
  }

  const TwinFile := FileRow(0, "a", "a", Active, 1, Some(9))

  lemma TwinCommitSteps()
    ensures var t := TwinTables(Uploaded, Uploaded); var seen := Seen(101, TwinIntent(Uploaded));
      && CommitStep(t, 1, 101, CmIntent, TwinStep) == Stay(t, CmFile(seen))
      && CommitStep(t, 1, 101, CmFile(seen), TwinStep) == Stay(t, CmBatch(seen, LateFile))
      && var o := CommitStep(t, 1, 101, CmBatch(seen, LateFile), TwinStep);
         o.t.files == map[7 := TwinFile] && o.t.intents == TwinTables(Uploaded, Committed).intents
  {
    hide AgedVersions, NoCase;
    assert Wins(TwinTables(Uploaded, Uploaded), CommitAdvance(TwinIntent(Uploaded), LateFile, TwinStep));
  }

  lemma TwinCommits(w: World)
    requires 7 in w.procs && w.procs[7] == Proc(Commit(1, 101), CmIntent) && w.t == TwinTables(Uploaded, Uploaded)
    ensures var w' := Drive(w, 7, TwinStep, 3);
      && (forall pid | pid != 7 :: pid in w'.procs <==> pid in w.procs)
      && (forall pid | pid in w.procs && pid != 7 :: w'.procs[pid] == w.procs[pid])
      && w'.t.files == map[7 := TwinFile] && w'.t.intents == TwinTables(Uploaded, Committed).intents
  {
    hide CommitStep, TwinTables, TwinIntent;
    TwinCommitSteps();
    var seen := Seen(101, TwinIntent(Uploaded));
    assert Drive(w, 7, TwinStep, 0) == Only(w, 7, w.t, CmIntent);
    DriveBy(w, 7, TwinStep, 0, w.t, CmIntent, w.t, CmFile(seen));
    DriveBy(w, 7, TwinStep, 1, w.t, CmFile(seen), w.t, CmBatch(seen, LateFile));
    assert Drive(w, 7, TwinStep, 3) == Next(Drive(w, 7, TwinStep, 2), Run(7, TwinStep));
  }

  lemma LateAbandonSteps(t: Tables)
    requires t.files == map[7 := TwinFile] && t.intents == TwinTables(Uploaded, Committed).intents
    ensures var seen := Seen(100, LateIntent(Uploaded));
      && CommitStep(t, 1, 100, CmIntent, TwinStep) == Stay(t, CmFile(seen))
      && CommitStep(t, 1, 100, CmFile(seen), TwinStep) == Stay(t, CmAbandon(seen, TwinFile))
      && CommitStep(t, 1, 100, CmAbandon(seen, TwinFile), TwinStep)
           == Stay(t.(intents := TwinTables(Abandoned, Committed).intents), Done(CommitOk(7, 1, 9)))
  {
    assert MarkAbandoned(t, 100).intents == TwinTables(Abandoned, Committed).intents;
  }

  lemma LateAbandons(w: World)
    requires 4 in w.procs && w.procs[4] == Proc(Commit(1, 100), CmIntent)
    requires w.t.files == map[7 := TwinFile] && w.t.intents == TwinTables(Uploaded, Committed).intents
    ensures Drive(w, 4, TwinStep, 3) == Only(w, 4, w.t.(intents := TwinTables(Abandoned, Committed).intents), Done(CommitOk(7, 1, 9)))
  {
    hide CommitStep, TwinTables, LateIntent;
    LateAbandonSteps(w.t);
    var seen := Seen(100, LateIntent(Uploaded));
    assert Drive(w, 4, TwinStep, 0) == Only(w, 4, w.t, CmIntent);
    DriveBy(w, 4, TwinStep, 0, w.t, CmIntent, w.t, CmFile(seen));
    DriveBy(w, 4, TwinStep, 1, w.t, CmFile(seen), w.t, CmAbandon(seen, TwinFile));
    DriveBy(w, 4, TwinStep, 2, w.t, CmAbandon(seen, TwinFile), w.t.(intents := TwinTables(Abandoned, Committed).intents), Done(CommitOk(7, 1, 9)));
  }

  lemma AbandonedAnswer(t: Tables)
    requires t.intents == TwinTables(Abandoned, Committed).intents
    ensures PreflightStep(t, LateInput, PfKeyAgain(7, LateFile), TwinStep) == Fail(t, IntentAbandoned)
  {
    assert 100 in t.intents && t.intents[100].owner == 1 && t.intents[100].key == LateKey;
  }

  /** Between one request's two lookups its key is reserved, its content committed under another key,
      and its own intent therefore abandoned: the second lookup answers so. */
  lemma LateKeyIsAnsweredAbandoned() returns (events: seq<Event>)
    ensures 1 in Runs(Start, events).procs && Runs(Start, events).procs[1].pc == Done(Failed(IntentAbandoned))
  {
    hide Next, Drive, LateTables, TwinTables, LateIntent, TwinIntent;
    events := Arrived([], 1, Preflight(LateInput));
    assert Runs(Start, []) == Start;
    Arrives(Start, 1, Preflight(LateInput));
    LateFirst(Runs(Start, events));
    events := Driven(events, 1, LateStep, 5);
    events := Joined(events, 2, Preflight(LateInput));
    LateSecond(Runs(Start, events));
    events := Driven(events, 2, LateStep, 5);
    events := Joined(events, 3, Upload(1, 100, 9));
    LateUpload(Runs(Start, events));
    events := Driven(events, 3, LateStep, 4);
    events := Joined(events, 5, Preflight(TwinInput));
    TwinReserves(Runs(Start, events));
    events := Driven(events, 5, TwinStep, 5);
    events := Joined(events, 6, Upload(1, 101, 9));
    TwinUploads(Runs(Start, events));
    events := Driven(events, 6, TwinStep, 4);
    events := Joined(events, 7, Commit(1, 101));
    TwinCommits(Runs(Start, events));
    events := Driven(events, 7, TwinStep, 3);
    events := Joined(events, 4, Commit(1, 100));
    LateAbandons(Runs(Start, events));
    events := Driven(events, 4, TwinStep, 3);
    AbandonedAnswer(Runs(Start, events).t);
    FinalAnswer(Runs(Start, events));
    events := Driven(events, 1, TwinStep, 1);
  }

  lemma Joined(events: seq<Event>, pid: Pid, req: Request) returns (events': seq<Event>)
    requires pid !in Runs(Start, events).procs
    ensures var w := Runs(Start, events); Runs(Start, events') == w.(procs := w.procs[pid := Proc(req, FirstPc(req))])
  {
    hide Next;
    events' := Arrived(events, pid, req);
    Arrives(Runs(Start, events), pid, req);
  }

  lemma FinalAnswer(w: World)
    requires 1 in w.procs && w.procs[1] == Proc(Preflight(LateInput), PfKeyAgain(7, LateFile))
    requires PreflightStep(w.t, LateInput, PfKeyAgain(7, LateFile), TwinStep) == Fail(w.t, IntentAbandoned)
    ensures var w' := Drive(w, 1, TwinStep, 1); 1 in w'.procs && w'.procs[1].pc == Done(Failed(IntentAbandoned))
  {
    hide PreflightStep;
    assert Drive(w, 1, TwinStep, 0) == w;
  }
}
