/** The worker's requests and the leases in one interleaved world: the guard of a request is one
    statement, its write a later one, and leases may change hands in between. */
module LeasedCloud {
  import opened Wrappers
  import opened CloudTables
  import opened CloudHandlers
  import opened CloudHistory
  import L = Leases

  /** The last guard a request passed: when, for which file. */
  datatype Clearance = Clearance(at: nat, f: FileId)

  /** A rename or trash request: a guard, then one write. */
  datatype Change = Change(auth: L.Auth, f: FileId)

  /** `since` is when the lease standing on a file was taken; `step` counts the acts so far. */
  datatype Site = Site(
    w: World,
    rows: L.LeaseRows,
    auth: map<Pid, L.Auth>,
    changes: map<Pid, Change>,
    passed: map<Pid, Clearance>,
    since: map<FileId, nat>,
    step: nat)

  datatype Act =
    | Ask(pid: Pid, req: Request, auth: L.Auth)
    | Go(pid: Pid, x: Input, now: L.Millis)
    | AskChange(pid: Pid, change: Change)
    | GuardChange(pid: Pid, now: L.Millis)
    | WriteChange(pid: Pid, name: string, path: string, status: FileStatus)
    | FreeChange(f: FileId, name: string, path: string, status: FileStatus)  // restore from trash, permanent delete
    | OnLease(s: L.Statement)

  /** assertFileLeaseCompatible is part of these statements: the commit's and the upload's after they
      read the file, the restore's before its handler, the preflight's once the file has a version. */
  function GuardOf(req: Request, pc: Pc): Option<FileId> {
    match (req, pc)
    case (Commit(_, _), CmFile(seen)) => Some(seen.row.fileId)
    case (Upload(_, _, _), UpFile(seen)) => Some(seen.row.fileId)
    case (Restore(_, f, _, _), RsFile) => Some(f)
    case (Preflight(_), PfDecide(f, file, _)) => if file.currentVersion > 0 then Some(f) else None
    case _ => None
  }

  /** Where a request stands that has passed its guard and has yet to write. A replay of a committed
      or uploaded intent is answered before the guard, and writes nothing. */
  function Writing(req: Request, pc: Pc): Option<FileId> {
    match (req, pc)
    case (Commit(_, _), CmAbandon(seen, _)) => Some(seen.row.fileId)
    case (Commit(_, _), CmBatch(seen, _)) => Some(seen.row.fileId)
    case (Upload(_, _, _), UpStore(seen)) => Some(seen.row.fileId)
    case (Upload(_, _, _), UpSave(seen)) => Some(seen.row.fileId)
    case (Restore(_, f, _, _), RsSource(_)) => Some(f)
    case (Restore(_, f, _, _), RsBatch(_, _)) => Some(f)
    case _ => None
  }

  function GuardAt(w: World, pid: Pid): Option<FileId> {
    if pid in w.procs then GuardOf(w.procs[pid].req, w.procs[pid].pc) else None
  }

  function WritingAt(w: World, pid: Pid): Option<FileId> {
    if pid in w.procs then Writing(w.procs[pid].req, w.procs[pid].pc) else None
  }

  const Open := Site(CloudHistory.Start, map[], map[], map[], map[], map[], 0)

  /** The leases after a statement; those newly taken are dated. */
  function Dated(since: map<FileId, nat>, rows: L.LeaseRows, rows': L.LeaseRows, step: nat): map<FileId, nat> {
    map f | f in rows' :: if f in since && L.Holds(rows, f, rows'[f].owner, rows'[f].leaseId) then since[f] else step
  }

  function WithRows(s: Site, rows: L.LeaseRows): Site {
    s.(rows := rows, since := Dated(s.since, s.rows, rows, s.step))
  }

  ghost function Do(s: Site, a: Act): Site {
    Acted(s, a).(step := s.step + 1)
  }

  ghost function Acted(s: Site, a: Act): Site {
    match a
    case Ask(pid, req, auth) =>
      if pid in s.w.procs || pid in s.changes || pid in s.passed then s else s.(w := Next(s.w, Arrive(pid, req)), auth := s.auth[pid := auth])
    case Go(pid, x, now) =>
      if pid !in s.w.procs || pid !in s.auth then s
      else
        var guard := GuardAt(s.w, pid);
        if guard.None? then s.(w := Next(s.w, Run(pid, x)))
        else
          var passes := L.Passes(s.rows, s.auth[pid], guard.value, now);
          var s' := WithRows(s, L.Pruned(s.rows, Some(guard.value), now));
          s'.(w := Next(s.w, Run(pid, x.(ok := x.ok && passes))),
              passed := if passes then s.passed[pid := Clearance(s.step, guard.value)] else s.passed)
    case AskChange(pid, change) =>
      if pid in s.w.procs || pid in s.changes || pid in s.passed then s else s.(changes := s.changes[pid := change])
    case GuardChange(pid, now) =>
      if pid !in s.changes || pid in s.passed then s
      else
        var c := s.changes[pid];
        var s' := WithRows(s, L.Pruned(s.rows, Some(c.f), now));
        if L.Passes(s.rows, c.auth, c.f, now) then s'.(passed := s.passed[pid := Clearance(s.step, c.f)])
        else s'.(changes := s.changes - {pid})
    case WriteChange(pid, name, path, status) =>
      if pid !in s.changes || pid !in s.passed then s
      else s.(w := Next(s.w, Metadata(s.changes[pid].f, name, path, status)), changes := s.changes - {pid})
    case FreeChange(f, name, path, status) => s.(w := Next(s.w, Metadata(f, name, path, status)))
    case OnLease(stmt) => WithRows(s, L.Exec(s.rows, stmt))
  }

  ghost function Play(acts: seq<Act>): Site {
    if acts == [] then Open else Do(Play(acts[..|acts| - 1]), acts[|acts| - 1])
  }

  // ---------------------------------------------------------------- the guard refuses

  /** act a writes on f for a request: it creates a version, saves an upload, abandons an intent, or
      renames or trashes the file. */
  ghost predicate Writes(s: Site, a: Act, pid: Pid, f: FileId) {
    || (a.Go? && a.pid == pid && WritingAt(s.w, pid) == Some(f) && pid in s.auth && Do(s, a).w.t != s.w.t)
    || (a.WriteChange? && a.pid == pid && pid in s.changes && pid in s.passed && s.changes[pid].f == f)
  }

  function AuthOf(s: Site, pid: Pid): L.Auth
    requires pid in s.auth || pid in s.changes
  {
    if pid in s.changes then s.changes[pid].auth else s.auth[pid]
  }

  /** The act is the guard of request `pid` for f, whatever the request wants. */
  ghost predicate AsksGuard(s: Site, a: Act, pid: Pid, f: FileId, now: L.Millis) {
    match a
    case Go(p, _, n) => p == pid && n == now && pid in s.auth && pid !in s.changes && GuardAt(s.w, pid) == Some(f)
    case GuardChange(p, n) => p == pid && n == now && pid in s.changes && pid !in s.passed && pid !in s.w.procs && s.changes[pid].f == f
    case _ => false
  }

  /** The request has been answered, or refused. */
  predicate Over(s: Site, pid: Pid) {
    pid !in s.changes && (pid in s.w.procs ==> s.w.procs[pid].pc.Done?)
  }

  ghost function Onward(s: Site, acts: seq<Act>): Site {
    if acts == [] then s else Do(Onward(s, acts[..|acts| - 1]), acts[|acts| - 1])
  }

  predicate AsksAnew(a: Act, pid: Pid) {
    (a.Ask? || a.AskChange?) && a.pid == pid
  }

  /** While a lease stands, a guard that another device's request comes to, be it a preflight, an upload,
      a commit, a restore, a rename or a trash, ends the request: it has written nothing, and never
      will, whatever happens later. */
  lemma OthersKeptOut(s: Site, a: Act, pid: Pid, f: FileId, now: L.Millis, more: seq<Act>, b: Act, g: FileId)
    requires AsksGuard(s, a, pid, f, now)
    requires f in s.rows && now < s.rows[f].expiresAt && !L.IsOwner(AuthOf(s, pid), s.rows[f].owner)
    requires forall m | m in more :: !AsksAnew(m, pid)
    ensures Do(s, a).w.t == s.w.t && Do(s, a).w.created == s.w.created
    ensures a.Go? ==> Do(s, a).w.procs[pid].pc == Done(Failed(Refused))
    ensures !Writes(Onward(Do(s, a), more), b, pid, g)
  {
    GuardRefuses(s, a, pid, f, now);
    hide Do, AsksGuard, Over;
    OverStays(Do(s, a), more, pid);
    OverWritesNothing(Onward(Do(s, a), more), b, pid, g);
  }

  lemma GuardRefuses(s: Site, a: Act, pid: Pid, f: FileId, now: L.Millis)
    requires AsksGuard(s, a, pid, f, now)
    requires f in s.rows && now < s.rows[f].expiresAt && !L.IsOwner(AuthOf(s, pid), s.rows[f].owner)
    ensures Do(s, a).w.t == s.w.t && Do(s, a).w.created == s.w.created && Over(Do(s, a), pid)
    ensures a.Go? ==> pid in Do(s, a).w.procs && Do(s, a).w.procs[pid].pc == Done(Failed(Refused))
  {
    hide RestoreBatch, CommitBatch, Wins, FindKey;
  }

  lemma {:induction false} OverStays(s: Site, acts: seq<Act>, pid: Pid)
    requires Over(s, pid) && forall m | m in acts :: !AsksAnew(m, pid)
    ensures Over(Onward(s, acts), pid)
  {
    hide Do, Over;
    if acts != [] {
      var n := |acts| - 1;
      assert acts[n] in acts;
      OverStays(s, acts[..n], pid);
      OverStaysOnce(Onward(s, acts[..n]), acts[n], pid);
    }
  }

  lemma OverStaysOnce(s: Site, a: Act, pid: Pid)
    requires Over(s, pid) && !AsksAnew(a, pid)
    ensures Over(Do(s, a), pid)
  {
    hide CloudHandlers.Step, PathTaken, SetMetadata, GuardOf;
    if a.Go? && a.pid == pid && pid in s.w.procs { DoneIsDone(s.w.t, s.w.procs[pid], a.x); }
  }

  lemma DoneIsDone(t: Tables, p: Proc, x: Input)
    requires p.pc.Done?
    ensures GuardOf(p.req, p.pc).None? && CloudHandlers.Step(t, p, x).pc == p.pc
  {
  }

  lemma OverWritesNothing(s: Site, a: Act, pid: Pid, f: FileId)
    requires Over(s, pid)
    ensures !Writes(s, a, pid, f)
  {
    hide Do;
  }

  // ---------------------------------------------------------------- a write after its guard

  predicate Stranger(s: Site, auth: L.Auth, f: FileId) {
    f in s.rows && !L.IsOwner(auth, s.rows[f].owner)
  }

  /** `pid` passed its guard for f, and if somebody else's lease stands there now, it was taken later. */
  predicate ClearedBefore(s: Site, pid: Pid, auth: L.Auth, f: FileId) {
    && pid in s.passed && s.passed[pid].f == f && s.passed[pid].at < s.step
    && (Stranger(s, auth, f) ==> f in s.since && s.passed[pid].at < s.since[f])
  }

  ghost predicate RequestsCleared(s: Site) {
    forall pid | pid in s.w.procs && WritingAt(s.w, pid).Some? ::
      pid in s.auth && ClearedBefore(s, pid, s.auth[pid], WritingAt(s.w, pid).value)
  }

  ghost predicate ChangesCleared(s: Site) {
    forall pid | pid in s.changes ::
      pid !in s.w.procs && (pid in s.passed ==> ClearedBefore(s, pid, s.changes[pid].auth, s.changes[pid].f))
  }

  predicate DatesRight(s: Site) {
    s.since.Keys == s.rows.Keys && forall f | f in s.since :: s.since[f] < s.step
  }

  ghost predicate Ordered(s: Site) {
    RequestsCleared(s) && ChangesCleared(s) && DatesRight(s)
  }

  /** A lease that changed hands is dated after every clearance there is. */
  lemma RowsKeepClearance(s: Site, rows: L.LeaseRows, s': Site, pid: Pid, auth: L.Auth, f: FileId)
    requires DatesRight(s) && ClearedBefore(s, pid, auth, f)
    requires s'.rows == rows && s'.since == Dated(s.since, s.rows, rows, s.step) && s'.step == s.step + 1
    requires pid in s'.passed && s'.passed[pid] == s.passed[pid]
    ensures ClearedBefore(s', pid, auth, f)
  {
  }

  lemma DatesStayRight(s: Site, rows: L.LeaseRows)
    requires DatesRight(s)
    ensures DatesRight(WithRows(s, rows).(step := s.step + 1))
  {
  }

  lemma SameDates(s: Site)
    requires DatesRight(s)
    ensures Dated(s.since, s.rows, s.rows, s.step) == s.since
  {
  }

  /** A request comes to its writing part only through its guard, and stays with its file. */
  lemma WritingFrom(t: Tables, p: Proc, x: Input)
    requires Writing(p.req, CloudHandlers.Step(t, p, x).pc).Some?
    ensures var f := Writing(p.req, CloudHandlers.Step(t, p, x).pc);
      if GuardOf(p.req, p.pc).Some? then GuardOf(p.req, p.pc) == f && x.ok else Writing(p.req, p.pc) == f
  {
    hide PreflightStep, MarkUploaded, MarkAbandoned, CommitBatch, RestoreBatch, RewindStep, DownloadStep, Wins, FreshVersionId;
  }

  lemma {:induction false} AlwaysOrdered(acts: seq<Act>)
    ensures Ordered(Play(acts)) && Play(acts).step == |acts|
  {
    hide Ordered, Do;
    if acts == [] {
      OpenIsOrdered();
    } else {
      AlwaysOrdered(acts[..|acts| - 1]);
      DoKeepsOrder(Play(acts[..|acts| - 1]), acts[|acts| - 1]);
    }
  }

  lemma OpenIsOrdered()
    ensures Ordered(Open)
  {
  }

  /** Clearances, but maybe pid's, hold on. */
  ghost predicate Carried(s: Site, s': Site, pid: Option<Pid>) {
    forall q: Pid, auth, g: FileId | ClearedBefore(s, q, auth, g) && pid != Some(q) :: ClearedBefore(s', q, auth, g)
  }

  lemma RequestsFollow(s: Site, s': Site, pid: Option<Pid>)
    requires RequestsCleared(s) && Carried(s, s', pid)
    requires forall q | q in s'.w.procs && pid != Some(q) && WritingAt(s'.w, q).Some? ::
      q in s.w.procs && s'.w.procs[q] == s.w.procs[q] && (q in s.auth ==> q in s'.auth && s'.auth[q] == s.auth[q])
    requires pid.Some? && pid.value in s'.w.procs && WritingAt(s'.w, pid.value).Some? ==>
      pid.value in s'.auth && ClearedBefore(s', pid.value, s'.auth[pid.value], WritingAt(s'.w, pid.value).value)
    ensures RequestsCleared(s')
  {
    hide ClearedBefore, Writing;
    forall q | q in s'.w.procs && WritingAt(s'.w, q).Some?
      ensures q in s'.auth && ClearedBefore(s', q, s'.auth[q], WritingAt(s'.w, q).value)
    {
      if pid != Some(q) {
        assert WritingAt(s.w, q) == WritingAt(s'.w, q);
      }
    }
  }

  lemma ChangesFollow(s: Site, s': Site)
    requires ChangesCleared(s) && Carried(s, s', None)
    requires s'.changes.Keys <= s.changes.Keys && s'.w.procs.Keys == s.w.procs.Keys
    requires forall q | q in s'.changes :: s'.changes[q] == s.changes[q]
    requires forall q | q in s'.changes && q in s'.passed :: q in s.passed
    ensures ChangesCleared(s')
  {
    hide ClearedBefore;
  }

  lemma RowsCarry(s: Site, s': Site, pid: Option<Pid>)
    requires DatesRight(s) && s'.since == Dated(s.since, s.rows, s'.rows, s.step) && s'.step == s.step + 1
    requires forall q | q in s.passed && pid != Some(q) :: q in s'.passed && s'.passed[q] == s.passed[q]
    ensures Carried(s, s', pid) && DatesRight(s')
  {
    hide Dated;
    DatesStayRight(s, s'.rows);
    forall q: Pid, auth, g: FileId | ClearedBefore(s, q, auth, g) && pid != Some(q) ensures ClearedBefore(s', q, auth, g) {
      RowsKeepClearance(s, s'.rows, s', q, auth, g);
    }
  }

  lemma OrderedParts(s: Site)
    ensures Ordered(s) <==> RequestsCleared(s) && ChangesCleared(s) && DatesRight(s)
  {
  }

  lemma DoKeepsOrder(s: Site, a: Act)
    requires Ordered(s)
    ensures Ordered(Do(s, a)) && Do(s, a).step == s.step + 1
  {
    match a {
      case Go(pid, x, now) => hide Ordered, Do; GoKeepsOrder(s, pid, x, now);
      case GuardChange(pid, now) => hide Ordered, Do; GuardKeepsOrder(s, pid, now);
      case OnLease(stmt) => hide Ordered, Do; LeaseKeepsOrder(s, stmt);
      case Ask(pid, req, auth) => hide Ordered, Do; AskKeepsOrder(s, pid, req, auth);
      case AskChange(pid, change) => hide Ordered, Do; AskChangeKeepsOrder(s, pid, change);
      case _ => hide Ordered, Do; MetadataKeepsOrder(s, a);
    }
  }

  lemma LeaseKeepsOrder(s: Site, stmt: L.Statement)
    requires Ordered(s)
    ensures Ordered(Do(s, OnLease(stmt))) && Do(s, OnLease(stmt)).step == s.step + 1
  {
    hide ClearedBefore, L.Exec, Writing, Dated, RequestsCleared, ChangesCleared, DatesRight, Carried;
    var s' := Do(s, OnLease(stmt));
    RowsCarry(s, s', None);
    RequestsFollow(s, s', None);
    ChangesFollow(s, s');
  }

  lemma MetadataKeepsOrder(s: Site, a: Act)
    requires Ordered(s) && (a.WriteChange? || a.FreeChange?)
    ensures Ordered(Do(s, a)) && Do(s, a).step == s.step + 1
  {
    hide ClearedBefore, SetMetadata, Writing, Dated, RequestsCleared, ChangesCleared, Carried, DatesRight;
    SameDates(s);
    var s' := Do(s, a);
    RowsCarry(s, s', None);
    RequestsFollow(s, s', None);
    ChangesFollow(s, s');
  }

  lemma AskKeepsOrder(s: Site, pid: Pid, req: Request, auth: L.Auth)
    requires Ordered(s)
    ensures Ordered(Do(s, Ask(pid, req, auth))) && Do(s, Ask(pid, req, auth)).step == s.step + 1
  {
    hide ClearedBefore, Writing, Dated, RequestsCleared, ChangesCleared, Carried, DatesRight;
    SameDates(s);
    FirstIsNotWriting(req);
    var s' := Do(s, Ask(pid, req, auth));
    RowsCarry(s, s', None);
    RequestsFollow(s, s', None);
    AskedChanges(s, s', pid);
  }

  lemma FirstIsNotWriting(req: Request)
    ensures Writing(req, FirstPc(req)) == None
  {
  }

  lemma AskedChanges(s: Site, s': Site, pid: Pid)
    requires ChangesCleared(s) && Carried(s, s', None)
    requires s'.changes == s.changes && s'.passed == s.passed && s'.w.procs.Keys <= s.w.procs.Keys + {pid}
    requires pid in s.changes ==> s'.w.procs.Keys <= s.w.procs.Keys
    ensures ChangesCleared(s')
  {
    hide ClearedBefore;
  }

  lemma AskChangeKeepsOrder(s: Site, pid: Pid, change: Change)
    requires Ordered(s)
    ensures Ordered(Do(s, AskChange(pid, change))) && Do(s, AskChange(pid, change)).step == s.step + 1
  {
    hide ClearedBefore, Writing, Dated, RequestsCleared, DatesRight;
    SameDates(s);
    var s' := Do(s, AskChange(pid, change));
    RowsCarry(s, s', None);
    RequestsFollow(s, s', None);
  }

  lemma GuardKeepsOrder(s: Site, pid: Pid, now: L.Millis)
    requires Ordered(s)
    ensures Ordered(Do(s, GuardChange(pid, now))) && Do(s, GuardChange(pid, now)).step == s.step + 1
  {
    hide Writing, Dated, RequestsCleared, ClearedBefore, L.Pruned, L.Passes, DatesRight;
    SameDates(s);
    var s' := Do(s, GuardChange(pid, now));
    if pid in s.changes && pid !in s.passed {
      RowsCarry(s, s', None);
      RequestsFollow(s, s', None);
      if L.Passes(s.rows, s.changes[pid].auth, s.changes[pid].f, now) {
        PassedIsCleared(s, s', pid, s.changes[pid].auth, s.changes[pid].f, now);
      }
    } else {
      RowsCarry(s, s', None);
      RequestsFollow(s, s', None);
    }
  }

  /** Just after a guard passed no stranger's lease stands. */
  lemma PassedIsCleared(s: Site, s': Site, pid: Pid, auth: L.Auth, f: FileId, now: L.Millis)
    requires L.Passes(s.rows, auth, f, now) && s'.rows == L.Pruned(s.rows, Some(f), now) && s'.step == s.step + 1
    requires pid in s'.passed && s'.passed[pid] == Clearance(s.step, f)
    ensures ClearedBefore(s', pid, auth, f)
  {
  }

  lemma GoKeepsOrder(s: Site, pid: Pid, x: Input, now: L.Millis)
    requires Ordered(s)
    ensures Ordered(Do(s, Go(pid, x, now))) && Do(s, Go(pid, x, now)).step == s.step + 1
  {
    hide Do, Writing, Dated, ClearedBefore, RequestsCleared, ChangesCleared, Carried, DatesRight;
    var s' := Do(s, Go(pid, x, now));
    GoFrame(s, pid, x, now);
    if pid in s.w.procs && pid in s.auth {
      RowsCarry(s, s', Some(pid));
      if WritingAt(s'.w, pid).Some? { WritingIsCleared(s, pid, x, now); }
      RequestsFollow(s, s', Some(pid));
      OthersChanges(s, s', pid);
    } else {
      RowsCarry(s, s', None);
      RequestsFollow(s, s', None);
      ChangesFollow(s, s');
    }
  }

  /** What one statement of a request can change. */
  lemma GoFrame(s: Site, pid: Pid, x: Input, now: L.Millis)
    requires DatesRight(s)
    ensures var s' := Do(s, Go(pid, x, now));
      && s'.step == s.step + 1 && s'.auth == s.auth && s'.changes == s.changes
      && s'.w.procs.Keys == s.w.procs.Keys && (forall q | q in s.w.procs && q != pid :: s'.w.procs[q] == s.w.procs[q])
      && s'.since == Dated(s.since, s.rows, s'.rows, s.step)
      && s'.passed.Keys <= s.passed.Keys + {pid}
      && (forall q | q in s.passed && q != pid :: q in s'.passed && s'.passed[q] == s.passed[q])
      && (pid !in s.w.procs || pid !in s.auth ==> s'.w == s.w && s'.passed == s.passed)
  {
    hide CloudHistory.Next, GuardOf, Dated, L.Pruned, L.Passes, DatesRight;
    SameDates(s);
    if pid in s.w.procs && pid in s.auth {
      var guard := GuardAt(s.w, pid);
      RunFrame(s.w, pid, if guard.Some? then x.(ok := x.ok && L.Passes(s.rows, s.auth[pid], guard.value, now)) else x);
    }
  }

  lemma RunFrame(w: World, pid: Pid, x: Input)
    requires pid in w.procs
    ensures var w' := Next(w, Run(pid, x)); w'.procs.Keys == w.procs.Keys && forall q | q in w.procs && q != pid :: w'.procs[q] == w.procs[q]
  {
    hide CloudHandlers.Step;
  }

  lemma OthersChanges(s: Site, s': Site, pid: Pid)
    requires ChangesCleared(s) && Carried(s, s', Some(pid)) && pid in s.w.procs
    requires s'.changes == s.changes && s'.w.procs.Keys == s.w.procs.Keys && s'.passed.Keys <= s.passed.Keys + {pid}
    ensures ChangesCleared(s')
  {
    hide ClearedBefore;
  }

  lemma WritingIsCleared(s: Site, pid: Pid, x: Input, now: L.Millis)
    requires Ordered(s) && pid in s.w.procs && pid in s.auth && WritingAt(Do(s, Go(pid, x, now)).w, pid).Some?
    ensures var s' := Do(s, Go(pid, x, now)); ClearedBefore(s', pid, s.auth[pid], WritingAt(s'.w, pid).value)
  {
    hide CloudHandlers.Step, Writing, GuardOf;
    var guard := GuardAt(s.w, pid);
    var x' := if guard.Some? then x.(ok := x.ok && L.Passes(s.rows, s.auth[pid], guard.value, now)) else x;
    WritingFrom(s.w.t, s.w.procs[pid], x');
  }

  // ---------------------------------------------------------------- the dates mean what they say

  /** At act k, `auth`'s request passed its guard for f: no other device's lease stood then. */
  ghost predicate GuardPassedAt(acts: seq<Act>, k: nat, pid: Pid, f: FileId)
    requires k < |acts|
  {
    GuardPasses(Play(acts[..k]), acts[k], pid, f)
  }

  predicate GuardPasses(s: Site, a: Act, pid: Pid, f: FileId) {
    match a
    case Go(p, _, now) => p == pid && pid in s.auth && GuardAt(s.w, pid) == Some(f) && L.Passes(s.rows, s.auth[pid], f, now)
    case GuardChange(p, now) => p == pid && pid in s.changes && s.changes[pid].f == f && L.Passes(s.rows, s.changes[pid].auth, f, now)
    case _ => false
  }

  /** At act k the lease was taken: it stands after, and did not before. */
  ghost predicate TakenAt(acts: seq<Act>, k: nat, f: FileId, lease: L.Lease)
    requires k < |acts|
  {
    && acts[k].OnLease? && L.Holds(Play(acts[..k + 1]).rows, f, lease.owner, lease.leaseId)
    && !L.Holds(Play(acts[..k]).rows, f, lease.owner, lease.leaseId)
  }

  lemma {:induction false} ClearanceIsTrue(acts: seq<Act>, pid: Pid)
    requires pid in Play(acts).passed
    ensures var c := Play(acts).passed[pid]; c.at < |acts| && GuardPassedAt(acts, c.at, pid, c.f)
  {
    hide Do, GuardPassedAt;
    var n := |acts| - 1;
    var s := Play(acts[..n]);
    AlwaysOrdered(acts[..n]);
    if pid in s.passed && Play(acts).passed[pid] == s.passed[pid] {
      ClearanceIsTrue(acts[..n], pid);
      EarlierGuard(acts, n, s.passed[pid].at, pid, s.passed[pid].f);
    } else {
      NewClearance(acts, pid);
    }
  }

  lemma EarlierGuard(acts: seq<Act>, n: nat, k: nat, pid: Pid, f: FileId)
    requires n <= |acts| && k < n && GuardPassedAt(acts[..n], k, pid, f)
    ensures GuardPassedAt(acts, k, pid, f)
  {
    assert acts[..n][..k] == acts[..k];
  }

  lemma NewClearance(acts: seq<Act>, pid: Pid)
    requires acts != [] && pid in Play(acts).passed
    requires var s := Play(acts[..|acts| - 1]); s.step == |acts| - 1 && !(pid in s.passed && Play(acts).passed[pid] == s.passed[pid])
    ensures var c := Play(acts).passed[pid]; c.at == |acts| - 1 && GuardPassedAt(acts, c.at, pid, c.f)
  {
    hide Do, GuardPasses;
    PassedNow(Play(acts[..|acts| - 1]), acts[|acts| - 1], pid);
  }

  lemma PassedNow(s: Site, a: Act, pid: Pid)
    requires pid in Do(s, a).passed && !(pid in s.passed && Do(s, a).passed[pid] == s.passed[pid])
    ensures var c := Do(s, a).passed[pid]; c.at == s.step && GuardPasses(s, a, pid, c.f)
  {
    hide L.Passes, L.Pruned, Dated, CloudHistory.Next, GuardAt;
  }

  lemma {:induction false} DateIsTrue(acts: seq<Act>, f: FileId)
    requires f in Play(acts).rows
    ensures f in Play(acts).since && Play(acts).since[f] < |acts| && TakenAt(acts, Play(acts).since[f], f, Play(acts).rows[f])
  {
    hide L.Passes, CloudHistory.Next, L.Exec, L.Pruned;
    var n := |acts| - 1;
    var s, s' := Play(acts[..n]), Play(acts);
    AlwaysOrdered(acts[..n]);
    AlwaysOrdered(acts);
    assert f in s'.since by { OrderedParts(s'); }
    OrderedParts(s);
    assert acts[..n + 1] == acts;
    if L.Holds(s.rows, f, s'.rows[f].owner, s'.rows[f].leaseId) {
      DateIsTrue(acts[..n], f);
      var k := s.since[f];
      assert acts[..n][..k] == acts[..k] && acts[..n][..k + 1] == acts[..k + 1];
      SameDate(s, acts[n], f);
    } else {
      NewDate(s, acts[n], f);
    }
  }

  lemma SameDate(s: Site, a: Act, f: FileId)
    requires DatesRight(s) && f in Do(s, a).rows && L.Holds(s.rows, f, Do(s, a).rows[f].owner, Do(s, a).rows[f].leaseId)
    ensures f in Do(s, a).since && Do(s, a).since[f] == s.since[f]
  {
    hide L.Passes, CloudHistory.Next, L.Exec, L.Pruned;
  }

  lemma NewDate(s: Site, a: Act, f: FileId)
    requires DatesRight(s) && f in Do(s, a).rows && !L.Holds(s.rows, f, Do(s, a).rows[f].owner, Do(s, a).rows[f].leaseId)
    ensures a.OnLease? && f in Do(s, a).since && Do(s, a).since[f] == s.step
  {
    hide L.Passes, CloudHistory.Next, L.Exec;
  }

  // ---------------------------------------------------------------- main results

  /** A write lands on a file while another device's lease stands there only if the request's guard ran
      before that lease was taken. */
  lemma LateWrite(acts: seq<Act>, a: Act, pid: Pid, f: FileId)
    requires var s := Play(acts); Writes(s, a, pid, f) && Stranger(s, AuthOf(s, pid), f)
    ensures exists g: nat, i: nat ::
      && g < i < |acts| && GuardPassedAt(acts, g, pid, f) && TakenAt(acts, i, f, Play(acts).rows[f])
  {
    hide Do, GuardPassedAt, TakenAt;
    var s := Play(acts);
    AlwaysOrdered(acts);
    WriterIsCleared(s, a, pid, f);
    ClearanceIsTrue(acts, pid);
    DateIsTrue(acts, f);
    var g, i := s.passed[pid].at, s.since[f];
    assert g < i < |acts| && GuardPassedAt(acts, g, pid, f) && TakenAt(acts, i, f, s.rows[f]);
  }

  lemma WriterIsCleared(s: Site, a: Act, pid: Pid, f: FileId)
    requires Ordered(s) && Writes(s, a, pid, f)
    ensures ClearedBefore(s, pid, AuthOf(s, pid), f)
  {
    hide Do, Writing;
  }

  // ---------------------------------------------------------------- the gap is real

  const Me := L.Auth(1, Some(1))
  const Other := L.Owner(2, 9)

  /** No lease anywhere, and nobody but requests has asked. */
  ghost predicate Calm(s: Site) {
    s.rows == map[] && s.changes == map[] && s.passed.Keys <= s.w.procs.Keys
  }

  lemma GoFreely(s: Site, pid: Pid)
    requires Calm(s) && pid in s.w.procs && pid in s.auth
    ensures var s' := Do(s, Go(pid, LateStep, 0)); s'.w == Next(s.w, Run(pid, LateStep)) && Calm(s') && s'.auth == s.auth
  {
    hide CloudHandlers.Step, GuardOf;
    assert LateStep.(ok := true) == LateStep;
  }

  lemma {:induction false} GoMany(acts: seq<Act>, pid: Pid, n: nat) returns (acts': seq<Act>)
    requires Calm(Play(acts)) && pid in Play(acts).w.procs && pid in Play(acts).auth
    ensures Play(acts').w == Drive(Play(acts).w, pid, LateStep, n) && Calm(Play(acts')) && Play(acts').auth == Play(acts).auth
    ensures pid in Play(acts').w.procs
  {
    hide CloudHandlers.Step, Do, Calm;
    if n == 0 { return acts; }
    var before := GoMany(acts, pid, n - 1);
    acts' := before + [Go(pid, LateStep, 0)];
    assert acts'[..|acts'| - 1] == before;
    GoFreely(Play(before), pid);
  }

  lemma Asked(acts: seq<Act>, pid: Pid, req: Request) returns (acts': seq<Act>)
    requires Calm(Play(acts)) && pid !in Play(acts).w.procs
    ensures Play(acts').w == Next(Play(acts).w, Arrive(pid, req)) && Calm(Play(acts'))
    ensures Play(acts').w.procs == Play(acts).w.procs[pid := Proc(req, FirstPc(req))] && Play(acts').w.t == Play(acts).w.t
    ensures pid in Play(acts').auth && Play(acts').auth[pid] == Me
  {
    acts' := acts + [Ask(pid, req, Me)];
    assert acts'[..|acts'| - 1] == acts;
    hide CloudHandlers.Step;
  }

  /** A run that ends with a commit of device Me past its guard, before its batch, on a free file. */
  lemma CommitInFlight() returns (acts: seq<Act>)
    ensures var s := Play(acts);
      && Calm(s) && 4 in s.w.procs && 4 in s.auth && s.auth[4] == Me && s.w.t == LateTables(Uploaded)
      && s.w.procs[4] == Proc(Commit(1, 100), CmBatch(Seen(100, LateIntent(Uploaded)), LateFile))
  {
    hide Do, Calm, Drive, LateTables, LateIntent;
    assert Calm(Play([])) by { OpenIsCalm(); }
    acts := Asked([], 1, Preflight(LateInput));
    LateWhole(Play(acts).w);
    acts := GoMany(acts, 1, 7);
    acts := Asked(acts, 3, Upload(1, 100, 9));
    LateUpload(Play(acts).w);
    acts := GoMany(acts, 3, 4);
    acts := Asked(acts, 4, Commit(1, 100));
    LateCommitReady(Play(acts).w);
    acts := GoMany(acts, 4, 2);
  }

  lemma OpenIsCalm()
    ensures Calm(Open)
  {
  }

  /** The input: a commit passes its guard, another device takes the lease, and the commit's batch still
      creates the version under that lease. */
  lemma OvertakenCommit() returns (acts: seq<Act>, a: Act)
    ensures var s := Play(acts); var s' := Do(s, a);
      && 4 in s.auth && s.auth[4] == Me && Writes(s, a, 4, 7) && Stranger(s, Me, 7)
      && |s'.w.created| == |s.w.created| + 1 && s'.w.created[|s.w.created|] == Creation(7, 1, ByIntent(100))
      && Stranger(s', Me, 7)
  {
    var free := CommitInFlight();
    acts := free + [OnLease(L.Upsert(7, Other, 50, 0, 0))];
    a := Go(4, LateStep, 0);
    assert acts[..|acts| - 1] == free;
    assert Play(acts) == Do(Play(free), OnLease(L.Upsert(7, Other, 50, 0, 0)));
    TakenMeanwhile(Play(free));
    BatchLands(Play(acts));
  }

  lemma TakenMeanwhile(s: Site)
    requires Calm(s)
    ensures var s' := Do(s, OnLease(L.Upsert(7, Other, 50, 0, 0)));
      s'.w == s.w && s'.auth == s.auth && s'.changes == map[] && s'.rows == map[7 := L.Lease(Other, 50, 0, L.LEASE_TTL_MS)]
  {
  }

  lemma BatchLands(s: Site)
    requires 4 in s.w.procs && s.w.t == LateTables(Uploaded) && s.changes == map[]
    requires s.w.procs[4] == Proc(Commit(1, 100), CmBatch(Seen(100, LateIntent(Uploaded)), LateFile))
    requires 4 in s.auth && s.auth[4] == Me && s.rows == map[7 := L.Lease(Other, 50, 0, L.LEASE_TTL_MS)]
    ensures var s' := Do(s, Go(4, LateStep, 0));
      && Writes(s, Go(4, LateStep, 0), 4, 7) && Stranger(s, Me, 7)
      && |s'.w.created| == |s.w.created| + 1 && s'.w.created[|s.w.created|] == Creation(7, 1, ByIntent(100))
      && Stranger(s', Me, 7)
  {
    LateBatch();
    hide CommitStep, PreflightStep, UploadStep, RestoreStep, RewindStep, DownloadStep, LateTables;
  }
}
