/** Which answer a preflight gives, exactly: over every interleaving, on the rows its own statements
    have found. */
module PreflightAnswers {
  import opened Wrappers
  import opened CloudTables
  import opened CloudHandlers
  import opened CloudHistory
  import opened KeyReplays

  // ---------------------------------------------------------------- what its statements found

  /** The first lookup found an intent of this owner and key, in this status. */
  ghost predicate FirstFound(q: PreflightInput, ms: seq<Moment>, status: IntentStatus) {
    |ms| >= 2 && Trail(q, ms[..1]).PfKey? && HasKeyIn(ms[1].t, q, status)
  }

  predicate HasKeyIn(t: Tables, q: PreflightInput, status: IntentStatus) {
    exists i | i in t.intents.Keys :: t.intents[i].owner == q.user && t.intents[i].key == q.key && t.intents[i].status == status
  }

  datatype Finding = SameContent | OtherVersion | AtItsBase

  /** What the file row it decides on says. */
  function FindingOf(q: PreflightInput, file: FileRow): Finding {
    if file.currentVersion > 0 && file.currentHash == Some(q.hash) then SameContent
    else if file.currentVersion != q.base then OtherVersion
    else AtItsBase
  }

  /** It came to decide on a file row with this finding, and a file with versions was not refused. */
  ghost predicate Found(q: PreflightInput, ms: seq<Moment>, finding: Finding) {
    exists j | 0 <= j < |ms| :: FoundAt(q, ms, j, finding)
  }

  ghost predicate FoundAt(q: PreflightInput, ms: seq<Moment>, j: nat, finding: Finding)
    requires j < |ms|
  {
    var pc := Trail(q, ms[..j]);
    pc.PfDecide? && FindingOf(q, pc.file) == finding && (pc.file.currentVersion > 0 ==> ms[j].x.ok)
  }

  /** It reserved an intent of its own. */
  ghost predicate Inserted(q: PreflightInput, ms: seq<Moment>) {
    exists j | 0 <= j < |ms| :: InsertedAt(q, ms, j)
  }

  ghost predicate InsertedAt(q: PreflightInput, ms: seq<Moment>, j: nat)
    requires j < |ms|
  {
    Trail(q, ms[..j]).PfInsert? && ms[j].x.id !in ms[j].t.intents && KeyFree(ms[j].t.intents, q.user, q.key)
  }

  // ---------------------------------------------------------------- along a trail

  predicate Says(pc: Pc, reply: Reply) {
    pc.Done? && match reply
      case Noop(_, _, _) => pc.reply.Noop?
      case Conflict(_, _, _) => pc.reply.Conflict?
      case CommitRequired(_, _) => pc.reply.CommitRequired?
      case UploadRequired(_, _) => pc.reply.UploadRequired?
      case _ => false
  }

  const ANoop := Noop(0, 0, 0)
  const AConflict := Conflict(0, 0, None)
  const ACommit := CommitRequired(0, 0)
  const AnUpload := UploadRequired(0, 0)

  /** It decides on a replay in this status, the file standing at its base. */
  ghost predicate Replayed(q: PreflightInput, pc: Pc, x: Input, status: IntentStatus) {
    && pc.PfDecide? && pc.replayed.Some? && pc.replayed.value.row.status == status
    && FindingOf(q, pc.file).AtItsBase? && (pc.file.currentVersion > 0 ==> x.ok)
  }

  /** One statement's answer, by what stood before it. */
  lemma OneAnswer(t: Tables, q: PreflightInput, pc: Pc, x: Input)
    requires Consistent(t) && ValidPc(t, Preflight(q), pc)
    ensures var pc' := PreflightStep(t, q, pc, x).pc;
      && (Says(pc', ANoop) <==> Says(pc, ANoop) || (pc.PfDecide? && FindingOf(q, pc.file).SameContent? && x.ok))
      && (Says(pc', AConflict) <==>
            Says(pc, AConflict) || (pc.PfDecide? && FindingOf(q, pc.file).OtherVersion? && (pc.file.currentVersion > 0 ==> x.ok)))
      && (Says(pc', ACommit) <==> Says(pc, ACommit) || Replayed(q, pc, x, Uploaded) || (pc.PfKeyAgain? && Matches(t, q, pc.f, Uploaded)))
      && (Says(pc', AnUpload) <==>
            (Says(pc, AnUpload) || Replayed(q, pc, x, Reserved) || (pc.PfKeyAgain? && Matches(t, q, pc.f, Reserved))
              || (pc.PfInsert? && x.id !in t.intents && KeyFree(t.intents, q.user, q.key))))
  {
    hide Consistent, ValidPc, PathTaken, SamePath, Replays, KeyFree;
  }

  ghost predicate ReplayedAt(q: PreflightInput, ms: seq<Moment>, j: nat, status: IntentStatus)
    requires j < |ms|
  {
    Replayed(q, Trail(q, ms[..j]), ms[j].x, status)
  }

  ghost predicate DecidedOn(q: PreflightInput, ms: seq<Moment>, status: IntentStatus) {
    exists j | 0 <= j < |ms| :: ReplayedAt(q, ms, j, status)
  }

  lemma SamePrefix(q: PreflightInput, ms: seq<Moment>, n: nat, j: nat, finding: Finding, status: IntentStatus)
    requires j < n <= |ms|
    ensures FoundAt(q, ms[..n], j, finding) == FoundAt(q, ms, j, finding)
    ensures InsertedAt(q, ms[..n], j) == InsertedAt(q, ms, j)
    ensures ReplayedAt(q, ms[..n], j, status) == ReplayedAt(q, ms, j, status)
    ensures SecondFoundAt(q, ms[..n], j, status) == SecondFoundAt(q, ms, j, status)
  {
    assert ms[..n][..j] == ms[..j];
  }

  lemma {:induction false} TrailSays(q: PreflightInput, ms: seq<Moment>)
    requires Real(q, ms)
    ensures Says(Trail(q, ms), ANoop) <==> Found(q, ms, SameContent)
    ensures Says(Trail(q, ms), AConflict) <==> Found(q, ms, OtherVersion)
    ensures Says(Trail(q, ms), ACommit) <==>
      DecidedOn(q, ms, Uploaded) || SecondFound(q, ms, Uploaded)
    ensures Says(Trail(q, ms), AnUpload) <==>
      DecidedOn(q, ms, Reserved) || SecondFound(q, ms, Reserved) || Inserted(q, ms)
  {
    hide PreflightStep, Consistent, ValidPc, Grows, FoundAt, InsertedAt, ReplayedAt, SecondFoundAt, Found, Inserted, DecidedOn, SecondFound, Says;
    if ms == [] {
      NothingSaid();
      NothingFound(q);
    } else {
      var n := |ms| - 1;
      TrailSays(q, ms[..n]);
      BeforeLast(q, ms);
      LastSays(q, ms);
      FoundLonger(q, ms, SameContent);
      FoundLonger(q, ms, OtherVersion);
      ReplayedLonger(q, ms, Uploaded);
      ReplayedLonger(q, ms, Reserved);
      SecondFoundLonger(q, ms, Uploaded);
      SecondFoundLonger(q, ms, Reserved);
      InsertedLonger(q, ms);
    }
  }

  lemma FoundLonger(q: PreflightInput, ms: seq<Moment>, finding: Finding)
    requires ms != []
    ensures var n := |ms| - 1; Found(q, ms, finding) <==> Found(q, ms[..n], finding) || FoundAt(q, ms, n, finding)
  {
    hide FoundAt;
    var n := |ms| - 1;
    forall j | 0 <= j < n ensures FoundAt(q, ms[..n], j, finding) == FoundAt(q, ms, j, finding) {
      SamePrefix(q, ms, n, j, finding, Reserved);
    }
  }

  lemma InsertedLonger(q: PreflightInput, ms: seq<Moment>)
    requires ms != []
    ensures var n := |ms| - 1; Inserted(q, ms) <==> Inserted(q, ms[..n]) || InsertedAt(q, ms, n)
  {
    hide InsertedAt;
    var n := |ms| - 1;
    forall j | 0 <= j < n ensures InsertedAt(q, ms[..n], j) == InsertedAt(q, ms, j) {
      SamePrefix(q, ms, n, j, AtItsBase, Reserved);
    }
  }

  lemma ReplayedLonger(q: PreflightInput, ms: seq<Moment>, status: IntentStatus)
    requires ms != []
    ensures var n := |ms| - 1;
      DecidedOn(q, ms, status) <==> DecidedOn(q, ms[..n], status) || ReplayedAt(q, ms, n, status)
  {
    hide ReplayedAt;
    var n := |ms| - 1;
    forall j | 0 <= j < n ensures ReplayedAt(q, ms[..n], j, status) == ReplayedAt(q, ms, j, status) {
      SamePrefix(q, ms, n, j, AtItsBase, status);
    }
  }

  lemma NothingSaid()
    ensures !Says(PfFile, ANoop) && !Says(PfFile, AConflict) && !Says(PfFile, ACommit) && !Says(PfFile, AnUpload)
  {
  }

  lemma NothingFound(q: PreflightInput)
    ensures forall finding :: !Found(q, [], finding)
    ensures forall status :: !DecidedOn(q, [], status) && !SecondFound(q, [], status)
    ensures !Inserted(q, [])
  {
  }

  lemma LastSays(q: PreflightInput, ms: seq<Moment>)
    requires Real(q, ms) && ms != []
    ensures var n := |ms| - 1; var (pc, pc') := (Trail(q, ms[..n]), Trail(q, ms));
      && (Says(pc', ANoop) <==> Says(pc, ANoop) || FoundAt(q, ms, n, SameContent))
      && (Says(pc', AConflict) <==> Says(pc, AConflict) || FoundAt(q, ms, n, OtherVersion))
      && (Says(pc', ACommit) <==> Says(pc, ACommit) || ReplayedAt(q, ms, n, Uploaded) || SecondFoundAt(q, ms, n, Uploaded))
      && (Says(pc', AnUpload) <==> Says(pc, AnUpload) || ReplayedAt(q, ms, n, Reserved) || SecondFoundAt(q, ms, n, Reserved) || InsertedAt(q, ms, n))
  {
    hide PreflightStep, Consistent, ValidPc, Grows, Matches, Says, KeyFree;
    BeforeLast(q, ms);
    OneAnswer(ms[|ms| - 1].t, q, Trail(q, ms[..|ms| - 1]), ms[|ms| - 1].x);
  }

  /** The replay a preflight works with is what its first lookup found. */
  predicate Carries(pc: Pc, status: IntentStatus) {
    (pc.PfReplayFile? && pc.replay.row.status == status) || (pc.PfDecide? && pc.replayed.Some? && pc.replayed.value.row.status == status)
  }

  lemma {:induction false} CarriesFirst(q: PreflightInput, ms: seq<Moment>, status: IntentStatus)
    requires Real(q, ms) && Carries(Trail(q, ms), status)
    ensures FirstFound(q, ms, status)
  {
    hide PreflightStep, Consistent, ValidPc, Grows, Carries, HasKeyIn;
    CarriesNothing(status);
    if ms != [] {
      var n := |ms| - 1;
      BeforeLast(q, ms);
      OneCarries(ms[n].t, q, Trail(q, ms[..n]), ms[n].x, status);
      if Carries(Trail(q, ms[..n]), status) {
        CarriesFirst(q, ms[..n], status);
        assert ms[..n][..1] == ms[..1];
      } else {
        AtPfKey(q, ms);
      }
    }
  }

  lemma CarriesNothing(status: IntentStatus)
    ensures !Carries(PfFile, status)
  {
  }

  lemma OneCarries(t: Tables, q: PreflightInput, pc: Pc, x: Input, status: IntentStatus)
    requires Carries(PreflightStep(t, q, pc, x).pc, status)
    ensures Carries(pc, status) || (pc.PfKey? && HasKeyIn(t, q, status))
  {
    hide PathTaken, SamePath, KeyFree;
  }

  lemma AtPfKey(q: PreflightInput, ms: seq<Moment>)
    requires Real(q, ms) && ms != [] && Trail(q, ms[..|ms| - 1]).PfKey?
    ensures |ms| == 2 && ms[..|ms| - 1] == ms[..1]
  {
    hide PreflightStep, Consistent, ValidPc, Grows;
    var before := ms[..|ms| - 1];
    if before == [] { FileFirst(); } else { PfKeyIsSecond(q, before); }
  }

  /** Decisions taken without a replay come after a first lookup that found nothing. */
  lemma DecidesOn(q: PreflightInput, ms: seq<Moment>, j: nat, status: IntentStatus)
    requires Real(q, ms) && j < |ms| && Trail(q, ms[..j]).PfDecide? && FirstFound(q, ms, status)
    ensures Trail(q, ms[..j]).replayed.Some? && Trail(q, ms[..j]).replayed.value.row.status == status
  {
    hide PreflightStep, Grows, Consistent, ValidPc;
    PrefixIsReal(q, ms, j);
    var pc := Trail(q, ms[..j]);
    TrailTells(q, ms[..j]);
    assert j > 0 ==> ms[..j][..1] == ms[..1];
    assert pc.replayed.None? ==> AfterNone(pc);
    if pc.replayed.Some? {
      CarriesFirst(q, ms[..j], pc.replayed.value.row.status);
      ConsistentAt(q, ms, 1);
      KeysAreUnique(ms[1].t, q, status, pc.replayed.value.row.status);
    }
  }

  lemma KeysAreUnique(t: Tables, q: PreflightInput, a: IntentStatus, b: IntentStatus)
    requires Consistent(t) && HasKeyIn(t, q, a) && HasKeyIn(t, q, b)
    ensures a == b
  {
    hide Chain, RetentionShape, IntentsSettled, UniqueIds;
  }

  lemma {:induction false} PrefixIsReal(q: PreflightInput, ms: seq<Moment>, j: nat)
    requires Real(q, ms) && j <= |ms|
    ensures Real(q, ms[..j])
    decreases |ms|
  {
    hide Grows, Consistent, Left;
    if j == |ms| {
      assert ms[..j] == ms;
    } else {
      PrefixIsReal(q, ms[..|ms| - 1], j);
      assert ms[..|ms| - 1][..j] == ms[..j];
    }
  }

  lemma ConsistentAt(q: PreflightInput, ms: seq<Moment>, j: nat)
    requires Real(q, ms) && j < |ms|
    ensures Consistent(ms[j].t)
  {
    hide Grows, Consistent, Left;
    PrefixIsReal(q, ms, j + 1);
    assert ms[..j + 1][j] == ms[j];
  }

  lemma ReplayedIsFound(q: PreflightInput, ms: seq<Moment>, status: IntentStatus)
    requires Real(q, ms)
    ensures DecidedOn(q, ms, status) <==> FirstFound(q, ms, status) && Found(q, ms, AtItsBase)
  {
    hide Trail, Real, FirstFound, FindingOf;
    if j: nat :| j < |ms| && ReplayedAt(q, ms, j, status) {
      PrefixIsReal(q, ms, j);
      CarriesFirst(q, ms[..j], status);
      LongerFound(q, ms, j, status);
      assert FoundAt(q, ms, j, AtItsBase);
    }
    if FirstFound(q, ms, status) && Found(q, ms, AtItsBase) {
      var j: nat :| j < |ms| && FoundAt(q, ms, j, AtItsBase);
      DecidesOn(q, ms, j, status);
      assert ReplayedAt(q, ms, j, status);
    }
  }

  lemma LongerFound(q: PreflightInput, ms: seq<Moment>, j: nat, status: IntentStatus)
    requires j <= |ms| && FirstFound(q, ms[..j], status)
    ensures FirstFound(q, ms, status)
  {
    hide Trail;
    assert ms[..j][..1] == ms[..1];
  }

  // ---------------------------------------------------------------- main results

  /** Every answer a preflight may give for a file and an intent in the middle of their lives: "noop" and
      "conflict" by the file row it decides on; "commit" if and only if the matching intent it last
      looked up was uploaded; "upload" if and only if that intent was only reserved, or it has just
      reserved it itself. */
  lemma AnswersExactly(q: PreflightInput, ms: seq<Moment>)
    requires Real(q, ms) && Trail(q, ms).Done?
    ensures Trail(q, ms).reply.Noop? <==> Found(q, ms, SameContent)
    ensures Trail(q, ms).reply.Conflict? <==> Found(q, ms, OtherVersion)
    ensures Trail(q, ms).reply.CommitRequired? <==>
      (FirstFound(q, ms, Uploaded) && Found(q, ms, AtItsBase)) || SecondFound(q, ms, Uploaded)
    ensures Trail(q, ms).reply.UploadRequired? <==>
      (FirstFound(q, ms, Reserved) && Found(q, ms, AtItsBase)) || SecondFound(q, ms, Reserved) || Inserted(q, ms)
  {
    hide Trail, Real, FirstFound, Found, SecondFound, Inserted, ReplayedAt;
    TrailSays(q, ms);
    ReplayedIsFound(q, ms, Uploaded);
    ReplayedIsFound(q, ms, Reserved);
  }

  /** The file row it decides on was in the tables when one of its statements ran. */
  ghost predicate WasThere(ms: seq<Moment>, f: FileId, row: FileRow) {
    exists k | 0 <= k < |ms| :: f in ms[k].t.files && ms[k].t.files[f] == row
  }

  lemma {:induction false} DecidesOnWhatItRead(q: PreflightInput, ms: seq<Moment>)
    ensures Trail(q, ms).PfDecide? ==> WasThere(ms, Trail(q, ms).f, Trail(q, ms).file)
    ensures Trail(q, ms).PfKey? && Trail(q, ms).known.Some? ==> q.fileId.Some? && WasThere(ms, q.fileId.value, Trail(q, ms).known.value)
  {
    hide WasThere, FindKey;
    if ms != [] {
      var n := |ms| - 1;
      DecidesOnWhatItRead(q, ms[..n]);
      LongerThere(ms, n);
      forall f | f in ms[n].t.files ensures WasThere(ms, f, ms[n].t.files[f]) { LastThere(ms, f); }
    }
  }

  lemma LongerThere(ms: seq<Moment>, n: nat)
    requires n <= |ms|
    ensures forall f, row :: WasThere(ms[..n], f, row) ==> WasThere(ms, f, row)
  {
    forall f, row | WasThere(ms[..n], f, row) ensures WasThere(ms, f, row) {
      var k: nat :| k < n && f in ms[..n][k].t.files && ms[..n][k].t.files[f] == row;
      assert ms[k] == ms[..n][k];
    }
  }

  lemma LastThere(ms: seq<Moment>, f: FileId)
    requires ms != [] && f in ms[|ms| - 1].t.files
    ensures WasThere(ms, f, ms[|ms| - 1].t.files[f])
  {
  }

  // ---------------------------------------------------------------- what is refused

  /** The intent was reserved by this very request: same file, workspace, name, content, base and channel. */
  predicate SameRequest(q: PreflightInput, workspace: nat, row: IntentRow) {
    && (q.fileId.Some? ==> row.fileId == q.fileId.value) && row.workspace == workspace && row.logicalName == q.logicalName
    && row.hash == q.hash && row.baseVersion == q.base && row.backend == q.backend
  }

  /** The key of the request belongs to an intent that is not of the same request, or not for file f. */
  predicate OthersKey(t: Tables, q: PreflightInput, workspace: nat) {
    exists i | i in t.intents.Keys ::
      t.intents[i].owner == q.user && t.intents[i].key == q.key && !SameRequest(q, workspace, t.intents[i])
  }

  predicate OtherIntent(t: Tables, q: PreflightInput, f: FileId) {
    exists i | i in t.intents.Keys ::
      && t.intents[i].owner == q.user && t.intents[i].key == q.key
      && !(t.intents[i].fileId == f && t.intents[i].hash == q.hash && t.intents[i].baseVersion == q.base && t.intents[i].backend == q.backend)
  }

  /** The file of a replayed key is no longer the active file of that path and workspace. */
  predicate MovedAway(t: Tables, q: PreflightInput, f: FileId, workspace: nat) {
    f in t.files && !(t.files[f].status == Active && t.files[f].workspace == workspace && SamePath(t.files[f].relativePath, q.relativePath))
  }

  /** A statement of the request finds what makes the worker refuse it with this code. */
  ghost predicate Refuses(t: Tables, q: PreflightInput, pc: Pc, x: Input, code: ErrorCode) {
    var here := q.fileId.Some? && q.fileId.value in t.files;
    match code
    case WorkspaceMismatch => pc.PfFile? && x.ok && here && q.workspace.Some? && q.workspace.value != t.files[q.fileId.value].workspace
    case FileNotActive =>
      && pc.PfFile? && x.ok && here && t.files[q.fileId.value].status != Active
      && (q.workspace.Some? ==> q.workspace.value == t.files[q.fileId.value].workspace)
    case KeyReused =>
      || (pc.PfKey? && OthersKey(t, q, pc.ws))
      || (pc.PfReplayFile? && x.ok && MovedAway(t, q, pc.replay.row.fileId, pc.ws))
      || (pc.PfKeyAgain? && OtherIntent(t, q, pc.f))
    case _ => false
  }

  ghost predicate RefusedAt(q: PreflightInput, ms: seq<Moment>, j: nat, code: ErrorCode)
    requires j < |ms|
  {
    Refuses(ms[j].t, q, Trail(q, ms[..j]), ms[j].x, code)
  }

  predicate Distinguished(code: ErrorCode) {
    code in {WorkspaceMismatch, FileNotActive, KeyReused}
  }

  lemma OneRefusal(t: Tables, q: PreflightInput, pc: Pc, x: Input, code: ErrorCode)
    requires Consistent(t) && Distinguished(code)
    ensures PreflightStep(t, q, pc, x).pc == Done(Failed(code)) <==> pc == Done(Failed(code)) || Refuses(t, q, pc, x, code)
  {
    hide PreflightStep, Refuses, Consistent;
    if pc.PfKey? { RefusedByKey(t, q, pc, x, code); } else if pc.PfKeyAgain? { RefusedByKeyAgain(t, q, pc, x, code); } else { RefusedByFile(t, q, pc, x, code); }
  }

  lemma RefusedByKey(t: Tables, q: PreflightInput, pc: Pc, x: Input, code: ErrorCode)
    requires Consistent(t) && Distinguished(code) && pc.PfKey?
    ensures PreflightStep(t, q, pc, x).pc == Done(Failed(code)) <==> Refuses(t, q, pc, x, code)
  {
    hide Consistent, PathTaken, SamePath;
    OnlyOneKey(t, q);
  }

  lemma RefusedByKeyAgain(t: Tables, q: PreflightInput, pc: Pc, x: Input, code: ErrorCode)
    requires Consistent(t) && Distinguished(code) && pc.PfKeyAgain?
    ensures PreflightStep(t, q, pc, x).pc == Done(Failed(code)) <==> Refuses(t, q, pc, x, code)
  {
    hide Consistent, PathTaken, SamePath;
    OnlyOneKey(t, q);
  }

  lemma RefusedByFile(t: Tables, q: PreflightInput, pc: Pc, x: Input, code: ErrorCode)
    requires Distinguished(code) && !pc.PfKey? && !pc.PfKeyAgain?
    ensures PreflightStep(t, q, pc, x).pc == Done(Failed(code)) <==> pc == Done(Failed(code)) || Refuses(t, q, pc, x, code)
  {
    hide PathTaken, NoCase, FindKey;
  }

  lemma OnlyOneKey(t: Tables, q: PreflightInput)
    requires Consistent(t)
    ensures var found := FindKey(t, q.user, q.key);
      forall i | i in t.intents.Keys && t.intents[i].owner == q.user && t.intents[i].key == q.key :: found.Some? && found.value == Seen(i, t.intents[i])
  {
    hide Chain, RetentionShape, IntentsSettled, UniqueIds;
  }

  /** A preflight is refused for the workspace, for a file that is not active, or for a key that stands for something
      else, if and only if one of its statements finds just that. */
  lemma {:induction false} RefusalsExactly(q: PreflightInput, ms: seq<Moment>, code: ErrorCode)
    requires Real(q, ms) && Distinguished(code)
    ensures Trail(q, ms) == Done(Failed(code)) <==> exists j | 0 <= j < |ms| :: RefusedAt(q, ms, j, code)
  {
    hide PreflightStep, Consistent, ValidPc, Grows, Refuses, Distinguished;
    if ms != [] {
      var n := |ms| - 1;
      RefusalsExactly(q, ms[..n], code);
      BeforeLast(q, ms);
      OneRefusal(ms[n].t, q, Trail(q, ms[..n]), ms[n].x, code);
      forall j | 0 <= j < n ensures RefusedAt(q, ms[..n], j, code) == RefusedAt(q, ms, j, code) {
        assert ms[..n][..j] == ms[..j];
      }
      assert RefusedAt(q, ms, n, code) == Refuses(ms[n].t, q, Trail(q, ms[..n]), ms[n].x, code);
    }
  }

  // ---------------------------------------------------------------- never to be uploaded twice

  /** It has not looked the intent up while it was only reserved, and has not been answered so. */
  predicate Unaware(pc: Pc) {
    !Carries(pc, Reserved) && !(pc.Done? && pc.reply.UploadRequired?)
  }

  /** Once the content of an intent is stored, no preflight that looks its key up later is told to upload
      it, whatever happens in between. */
  lemma {:induction false} NeverUploadedTwice(events: seq<Event>, more: seq<Event>, i: IntentId, pid: Pid, q: PreflightInput)
    requires var w := Runs(Start, events);
      && i in w.t.intents && w.t.intents[i].status != Reserved && w.t.intents[i].owner == q.user && w.t.intents[i].key == q.key
      && (pid in w.procs ==> Unaware(w.procs[pid].pc))
    requires var w := Runs(Start, events + more); pid in w.procs && w.procs[pid].req == Preflight(q)
    ensures Unaware(Runs(Start, events + more).procs[pid].pc)
  {
    hide Next, Inv, Grows, Unaware, Step;
    if more == [] {
      assert events + more == events;
    } else {
      var n := |more| - 1;
      var before := events + more[..n];
      var w := Runs(Start, before);
      assert (events + more)[..|events + more| - 1] == before;
      Reachable(before);
      HistoryIsPermanent(events, more[..n]);
      StillStored(Runs(Start, events).t, w.t, i);
      NextUnaware(w, more[n], i, pid, q);
      if pid in w.procs && w.procs[pid].req == Preflight(q) { NeverUploadedTwice(events, more[..n], i, pid, q); }
    }
  }

  lemma StillStored(t: Tables, t': Tables, i: IntentId)
    requires Grows(t, t') && i in t.intents
    ensures i in t'.intents && t'.intents[i].owner == t.intents[i].owner && t'.intents[i].key == t.intents[i].key
    ensures t.intents[i].status != Reserved ==> t'.intents[i].status != Reserved
  {
    hide FilesGrow, VersionsGrow;
  }

  lemma NextUnaware(w: World, e: Event, i: IntentId, pid: Pid, q: PreflightInput)
    requires Inv(w) && i in w.t.intents && w.t.intents[i].status != Reserved && w.t.intents[i].owner == q.user && w.t.intents[i].key == q.key
    requires pid in Next(w, e).procs && Next(w, e).procs[pid].req == Preflight(q)
    ensures pid in w.procs ==> w.procs[pid].req == Preflight(q)
    ensures (pid in w.procs ==> Unaware(w.procs[pid].pc)) ==> Unaware(Next(w, e).procs[pid].pc)
  {
    hide Consistent, Step, Unaware;
    InvIsConsistent(w);
    NewUnaware(q);
    if e.Run? && e.pid == pid && pid in w.procs && Unaware(w.procs[pid].pc) { StepUnaware(w.t, q, w.procs[pid].pc, e.x, i); }
  }

  lemma NewUnaware(q: PreflightInput)
    ensures Unaware(FirstPc(Preflight(q)))
  {
  }

  lemma StepUnaware(t: Tables, q: PreflightInput, pc: Pc, x: Input, i: IntentId)
    requires Consistent(t) && i in t.intents && t.intents[i].status != Reserved && t.intents[i].owner == q.user && t.intents[i].key == q.key
    requires Unaware(pc)
    ensures Unaware(Step(t, Proc(Preflight(q), pc), x).pc)
  {
    hide Chain, RetentionShape, IntentsSettled, UniqueIds, PathTaken, SamePath, Replays, UploadStep, CommitStep, RestoreStep, RewindStep, DownloadStep;
    assert !KeyFree(t.intents, q.user, q.key);
  }
}
