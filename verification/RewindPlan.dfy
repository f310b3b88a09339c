/** Rewinding a workspace: the snapshot log, the plan for a past time, and how one planned item is
    carried out. */
module RewindPlan {
  import opened Wrappers
  import opened CloudTables

  type Time = nat

  /** One row of file_state_history. */
  datatype Snapshot = Snapshot(
    fileId: FileId,
    logicalName: string,
    relativePath: string,
    status: FileStatus,
    contentVersion: nat,
    createdAt: Time)

  datatype Kind = KNoOp | KRestorePath | KRestoreStatus | KRestoreVersion | KTrashNew

  datatype Action =
    | NoOp
    | RestorePath(logicalName: string, relativePath: string)
    | RestoreStatus(status: FileStatus)
    | RestoreVersion(version: nat)
    | TrashNew

  datatype Planned = Planned(fileId: FileId, action: Action)

  /** What a plan is made from: the tables, when each file was created, and the snapshot log in the
      order it was written. */
  datatype Workspace = Workspace(t: Tables, created: map<FileId, Time>, history: seq<Snapshot>)

  function KindOf(a: Action): Kind {
    match a
    case NoOp => KNoOp
    case RestorePath(_, _) => KRestorePath
    case RestoreStatus(_) => KRestoreStatus
    case RestoreVersion(_) => KRestoreVersion
    case TrashNew => KTrashNew
  }

  // ---------------------------------------------------------------- the snapshot log

  function SnapshotOf(f: FileId, row: FileRow, now: Time): Snapshot {
    Snapshot(f, row.logicalName, row.relativePath, row.status, row.currentVersion, now)
  }

  /** ORDER BY created_at DESC LIMIT 1 among the snapshots of f at or before `time`; of equal times
      the one written last. */
  function LastAt(history: seq<Snapshot>, f: FileId, time: Time): Option<Snapshot> {
    if history == [] then None
    else
      var s := history[|history| - 1];
      var before := LastAt(history[..|history| - 1], f, time);
      if s.fileId == f && s.createdAt <= time && (before.None? || before.value.createdAt <= s.createdAt) then Some(s) else before
  }

  /** snapshot i is what a query for f at `time` may look at */
  predicate Seen(history: seq<Snapshot>, f: FileId, time: Time, i: nat)
    requires i < |history|
  {
    history[i].fileId == f && history[i].createdAt <= time
  }

  predicate Latest(history: seq<Snapshot>, f: FileId, time: Time, j: nat)
    requires j < |history|
  {
    && Seen(history, f, time, j)
    && forall i | 0 <= i < |history| && Seen(history, f, time, i) ::
         history[i].createdAt < history[j].createdAt || (history[i].createdAt == history[j].createdAt && i <= j)
  }

  lemma {:induction false} LastAtIsTheLatest(history: seq<Snapshot>, f: FileId, time: Time)
    ensures LastAt(history, f, time).None? ==> forall i | 0 <= i < |history| :: !Seen(history, f, time, i)
    ensures LastAt(history, f, time).Some? ==>
      exists j | 0 <= j < |history| :: Latest(history, f, time, j) && history[j] == LastAt(history, f, time).value
  {
    if history != [] {
      var n := |history| - 1;
      var shorter := history[..n];
      LastAtIsTheLatest(shorter, f, time);
      assert forall i | 0 <= i < n :: Seen(history, f, time, i) == Seen(shorter, f, time, i);
      var before := LastAt(shorter, f, time);
      if before.Some? {
        var j :| 0 <= j < n && Latest(shorter, f, time, j) && shorter[j] == before.value;
        assert LastAt(history, f, time) == before ==> Latest(history, f, time, j) || Latest(history, f, time, n);
        assert LastAt(history, f, time) != before ==> Latest(history, f, time, n);
      } else if Seen(history, f, time, n) {
        assert Latest(history, f, time, n);
      }
    }
  }

  /** Snapshots written later than `time` do not change what was true at `time`. */
  lemma {:induction false} LaterSnapshotsDoNotMatter(history: seq<Snapshot>, more: seq<Snapshot>, f: FileId, time: Time)
    requires forall s | s in more :: time < s.createdAt
    ensures LastAt(history + more, f, time) == LastAt(history, f, time)
  {
    if more == [] {
      assert history + more == history;
    } else {
      assert (history + more)[..|history + more| - 1] == history + more[..|more| - 1];
      LaterSnapshotsDoNotMatter(history, more[..|more| - 1], f, time);
    }
  }

  // ---------------------------------------------------------------- the plan

  predicate CreatedAfter(w: Workspace, f: FileId, time: Time) {
    f in w.created && time < w.created[f]
  }

  /** A file for which no past state is known and that is not simply new. */
  predicate Unsupported(w: Workspace, f: FileId, time: Time)
    requires f in w.t.files
  {
    LastAt(w.history, f, time).None? && !(CreatedAfter(w, f, time) && w.t.files[f].status != Deleted)
  }

  /** Whether the plan for `time` holds this action: what would differ from the past otherwise. */
  predicate Wanted(w: Workspace, time: Time, f: FileId, a: Action)
    requires f in w.t.files
  {
    var row := w.t.files[f];
    match LastAt(w.history, f, time)
    case None => a == TrashNew && CreatedAfter(w, f, time) && row.status != Deleted
    case Some(past) =>
      var sameContent := past.contentVersion == 0 || past.contentVersion == row.currentVersion;
      var samePlace := past.relativePath == row.relativePath && past.logicalName == row.logicalName;
      match a
      case TrashNew => false
      case RestoreVersion(v) => !sameContent && v == past.contentVersion
      case RestorePath(name, path) => !samePlace && name == past.logicalName && path == past.relativePath
      case RestoreStatus(status) => past.status != row.status && status == past.status
      case NoOp => sameContent && samePlace && past.status == row.status
  }

  predicate DistinctKinds(actions: seq<Planned>) {
    forall i, j | 0 <= i < j < |actions| ::
      (actions[i].fileId, KindOf(actions[i].action)) != (actions[j].fileId, KindOf(actions[j].action))
  }

  /** The body of planRewind's loop. */
  method PlanFile(w: Workspace, f: FileId, time: Time) returns (found: seq<Planned>, supported: bool)
    requires f in w.t.files
    ensures forall a :: Planned(f, a) in found <==> Wanted(w, time, f, a)
    ensures DistinctKinds(found) && forall p | p in found :: p.fileId == f
    ensures supported <==> !Unsupported(w, f, time)
  {
    var row := w.t.files[f];
    var target := LastAt(w.history, f, time);
    found, supported := [], true;
    if target.None? {
      if CreatedAfter(w, f, time) && row.status != Deleted {
        found := [Planned(f, TrashNew)];
      } else {
        supported := false;
      }
      return;
    }
    var past := target.value;
    if past.contentVersion > 0 && past.contentVersion != row.currentVersion {
      found := found + [Planned(f, RestoreVersion(past.contentVersion))];
    }
    if past.relativePath != row.relativePath || past.logicalName != row.logicalName {
      found := found + [Planned(f, RestorePath(past.logicalName, past.relativePath))];
    }
    if past.status != row.status {
      found := found + [Planned(f, RestoreStatus(past.status))];
    }
    if found == [] {
      found := found + [Planned(f, NoOp)];
    }
  }

  /** planRewind: one pass over the candidate files. */
  method PlanRewind(w: Workspace, candidates: seq<FileId>, time: Time) returns (actions: seq<Planned>, unsupported: seq<FileId>)
    requires forall i | 0 <= i < |candidates| :: candidates[i] in w.t.files
    requires forall i, j | 0 <= i < j < |candidates| :: candidates[i] != candidates[j]
    ensures forall f, a :: Planned(f, a) in actions <==> f in candidates && f in w.t.files && Wanted(w, time, f, a)
    ensures DistinctKinds(actions)
    ensures forall f :: f in unsupported <==> f in candidates && f in w.t.files && Unsupported(w, f, time)
  {
    hide Wanted, Unsupported;
    actions, unsupported := [], [];
    for n := 0 to |candidates|
      invariant forall f, a :: Planned(f, a) in actions <==> f in candidates[..n] && f in w.t.files && Wanted(w, time, f, a)
      invariant DistinctKinds(actions)
      invariant forall f :: f in unsupported <==> f in candidates[..n] && f in w.t.files && Unsupported(w, f, time)
    {
      var f := candidates[n];
      assert candidates[..n + 1] == candidates[..n] + [f];
      assert f !in candidates[..n];
      assert forall p | p in actions :: p.fileId != f by {
        forall p | p in actions ensures p.fileId != f {
          assert Planned(p.fileId, p.action) in actions;
        }
      }
      var found, supported := PlanFile(w, f, time);
      actions := actions + found;
      if !supported {
        unsupported := unsupported + [f];
      }
    }
    assert candidates[..|candidates|] == candidates;
  }

  // ---------------------------------------------------------------- the operation's items

  datatype ItemStatus = ItemPending | ItemRunning | ItemDone | ItemFailed
  type ItemId = (FileId, Kind)
  datatype Item = Item(action: Action, status: ItemStatus, attempts: nat)

  /** The state a rewind works on. `items` is keyed by the table's UNIQUE(operation_id, file_id, action). */
  datatype Rewinding = Rewinding(t: Tables, history: seq<Snapshot>, items: map<ItemId, Item>)

  /** Exactly the wanted actions of the candidates, each under its own key. */
  ghost predicate ItemsPlanned(w: Workspace, candidates: set<FileId>, time: Time, items: map<ItemId, Item>) {
    && (forall id | id in items :: id.0 in candidates && id.0 in w.t.files && Wanted(w, time, id.0, items[id].action)
          && KindOf(items[id].action) == id.1)
    && (forall f, a | f in candidates && f in w.t.files && Wanted(w, time, f, a) ::
          (f, KindOf(a)) in items && items[(f, KindOf(a))].action == a)
  }

  /** The rows INSERTed for a plan. */
  ghost predicate ItemsOf(w: Workspace, candidates: set<FileId>, time: Time, items: map<ItemId, Item>) {
    && ItemsPlanned(w, candidates, time, items)
    && forall id | id in items :: items[id].status == ItemPending && items[id].attempts == 0
  }

  function SetOf(s: seq<FileId>): set<FileId> {
    set f | f in s
  }

  predicate ItemFor(actions: seq<Planned>, id: ItemId, item: Item) {
    Planned(id.0, item.action) in actions && KindOf(item.action) == id.1 && item.status == ItemPending && item.attempts == 0
  }

  predicate HasItem(items: map<ItemId, Item>, p: Planned) {
    (p.fileId, KindOf(p.action)) in items && items[(p.fileId, KindOf(p.action))].action == p.action
  }

  method InsertItems(w: Workspace, candidates: seq<FileId>, time: Time, actions: seq<Planned>) returns (items: map<ItemId, Item>)
    requires forall f, a :: Planned(f, a) in actions <==> f in candidates && f in w.t.files && Wanted(w, time, f, a)
    requires DistinctKinds(actions)
    ensures ItemsOf(w, SetOf(candidates), time, items)
  {
    items := map[];
    for n := 0 to |actions|
      invariant forall id | id in items :: ItemFor(actions, id, items[id])
      invariant forall i | 0 <= i < n :: HasItem(items, actions[i])
    {
      var p := actions[n];
      assert Planned(p.fileId, p.action) == p;
      items := items[(p.fileId, KindOf(p.action)) := Item(p.action, ItemPending, 0)];
    }
    forall f, a | f in candidates && f in w.t.files && Wanted(w, time, f, a)
      ensures (f, KindOf(a)) in items && items[(f, KindOf(a))].action == a
    {
      var i :| 0 <= i < |actions| && actions[i] == Planned(f, a);
    }
  }

  // ---------------------------------------------------------------- one item

  datatype RewindError = FileLocked | UploadInProgress | FileMissing | PathConflict | SourceUnavailable | StorageFailed | BatchFailed

  /** What surrounds one try: another user's lease, whether storage clones the source, the fresh
      version id, the clock. */
  datatype Try = Try(locked: bool, stored: bool, versionId: nat, now: Time)

  predicate UploadOpen(intents: map<IntentId, IntentRow>, f: FileId) {
    exists i | i in intents.Keys :: intents[i].fileId == f && intents[i].status in {Reserved, Uploaded}
  }

  predicate VersionIdTaken(versions: map<VersionKey, VersionRow>, id: nat) {
    exists k | k in versions.Keys :: versions[k].id == id
  }

  /** name, path and status the item's UPDATE writes. */
  function Target(row: FileRow, a: Action): FileRow {
    match a
    case RestorePath(name, path) => row.(logicalName := name, relativePath := path)
    case RestoreStatus(status) => row.(status := status)
    case TrashNew => row.(status := Trashed)
    case _ => row
  }

  predicate MetadataConflict(files: map<FileId, FileRow>, f: FileId, a: Action)
    requires f in files
  {
    match a
    case RestorePath(_, path) => PathTaken(files, f, files[f].workspace, path)
    case RestoreStatus(status) => status == Active && PathTaken(files, f, files[f].workspace, files[f].relativePath)
    case _ => false
  }

  function VersionBatch(t: Tables, f: FileId, source: nat, versionId: nat): Advance
    requires f in t.files && (f, source) in t.versions
  {
    Advance(versionId, f, t.files[f].workspace, t.files[f].currentVersion, t.versions[(f, source)].hash, Some(source), -1)
  }

  /** Why the try of an item throws, or None. */
  function Obstacle(t: Tables, f: FileId, a: Action, x: Try): Option<RewindError> {
    if a.NoOp? then None
    else if x.locked then Some(FileLocked)
    else if UploadOpen(t.intents, f) then Some(UploadInProgress)
    else if f !in t.files then Some(FileMissing)
    else if !a.RestoreVersion? then (if MetadataConflict(t.files, f, a) then Some(PathConflict) else None)
    else if (f, a.version) !in t.versions || t.versions[(f, a.version)].status == Expired then Some(SourceUnavailable)
    else if !x.stored then Some(StorageFailed)
    else if (f, t.files[f].currentVersion + 1) in t.versions || VersionIdTaken(t.versions, x.versionId) then Some(BatchFailed)
    else None
  }

  /** The item's batch on the tables. */
  function Applied(t: Tables, f: FileId, a: Action, versionId: nat): Tables {
    if f !in t.files || a.NoOp? then t
    else if !a.RestoreVersion? then
      var row := Target(t.files[f], a);
      SetMetadata(t, f, row.logicalName, row.relativePath, row.status)
    else if (f, a.version) !in t.versions then t
    else RewindBatch(t, VersionBatch(t, f, a.version, versionId))
  }

  /** The whole try of one item. An item that cannot start keeps its attempt count. */
  function TryItem(s: Rewinding, id: ItemId, x: Try): Rewinding
    requires id in s.items
  {
    var item := s.items[id];
    var obstacle := Obstacle(s.t, id.0, item.action, x);
    var started := if item.action.NoOp? || (obstacle.Some? && obstacle.value in {FileLocked, UploadInProgress, FileMissing})
      then item else item.(attempts := item.attempts + 1);
    if obstacle.Some? then s.(items := s.items[id := started.(status := ItemFailed)])
    else
      var t := Applied(s.t, id.0, item.action, x.versionId);
      Rewinding(t,
        if item.action.NoOp? || id.0 !in t.files then s.history else s.history + [SnapshotOf(id.0, t.files[id.0], x.now)],
        s.items[id := started.(status := ItemDone)])
  }
}
