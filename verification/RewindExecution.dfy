/** A rewind operation as the worker carries it out: rows updated in place, item by item. */
module RewindExecution {
  import opened Wrappers
  import opened CloudTables
  import opened RewindPlan
  import opened RewindRuns
  import opened RewindRetries

  class RewindOperation {
    const db: Database
    var history: seq<Snapshot>
    var items: map<ItemId, Item>
    var status: OperationStatus

    ghost function Now(): Rewinding
      reads this, db
    {
      Rewinding(db.Rows(), history, items)
    }

    /** COMPLETED is written only when nothing is left. */
    predicate Valid()
      reads this
    {
      status == Completed ==> Undone(items) == {}
    }

    /** The operation row and the items of a plan, inserted in one batch. */
    constructor (db: Database, w: Workspace, candidates: seq<FileId>, time: Time, actions: seq<Planned>)
      requires w.t == db.Rows()
      requires DistinctKinds(actions)
      requires forall f, a :: Planned(f, a) in actions <==> f in candidates && f in w.t.files && Wanted(w, time, f, a)
      ensures Valid() && this.db == db && status == NotStarted
      ensures Prepared(w, SetOf(candidates), time, Now())
    {
      this.db := db;
      this.history := w.history;
      this.status := NotStarted;
      var rows := InsertItems(w, candidates, time, actions);
      this.items := rows;
    }

    /** completeSimpleRewindItem: path, status or trash. */
    method CompleteSimple(id: ItemId, x: Try) returns (error: Option<RewindError>)
      requires id in items && id.0 in db.files && !items[id].action.NoOp? && !items[id].action.RestoreVersion?
      modifies this`history, this`items, db`files
      ensures error == if MetadataConflict(old(db.files), id.0, old(items[id].action)) then Some(PathConflict) else None
      ensures var (file, action) := (old(db.files)[id.0], old(items[id].action));
        error.Some? <==>
          (action.RestorePath? && PathTaken(old(db.files), id.0, file.workspace, action.relativePath))
          || (action == RestoreStatus(Active) && PathTaken(old(db.files), id.0, file.workspace, file.relativePath))
      ensures error.Some? ==> Now() == old(Now())
      ensures error.None? ==>
        var (file, action) := (old(db.files)[id.0], old(items[id].action));
        var file' := match action
          case RestorePath(name, path) => file.(logicalName := name, relativePath := path)
          case RestoreStatus(status) => file.(status := status)
          case _ => file.(status := Trashed);
        && db.files == old(db.files)[id.0 := file']
        && history == old(history) + [Snapshot(id.0, file'.logicalName, file'.relativePath, file'.status, file'.currentVersion, x.now)]
      ensures error.None? ==>
        && db.Rows() == Applied(old(db.Rows()), id.0, old(items[id].action), x.versionId)
        && history == old(history) + [SnapshotOf(id.0, db.files[id.0], x.now)]
        && items == old(items)[id := old(items[id]).(status := ItemDone)]
    {
      var file := db.files[id.0];
      var nextName, nextPath, nextStatus := file.logicalName, file.relativePath, file.status;
      match items[id].action {
        case RestorePath(name, path) =>
          nextName, nextPath := name, path;
          if PathTaken(db.files, id.0, file.workspace, nextPath) {
            return Some(PathConflict);
          }
        case RestoreStatus(target) =>
          nextStatus := target;
          if nextStatus == Active && PathTaken(db.files, id.0, file.workspace, nextPath) {
            return Some(PathConflict);
          }
        case TrashNew =>
          nextStatus := Trashed;
        case _ =>
      }
      db.files := db.files[id.0 := file.(logicalName := nextName, relativePath := nextPath, status := nextStatus)];
      items := items[id := items[id].(status := ItemDone)];
      history := history + [SnapshotOf(id.0, db.files[id.0], x.now)];
      error := None;
    }

    /** completeVersionRewindItem: the old content becomes a new version. */
    method CompleteVersion(id: ItemId, x: Try) returns (error: Option<RewindError>)
      requires id in items && id.0 in db.files && items[id].action.RestoreVersion?
      modifies this`history, this`items, db
      ensures var t := old(db.Rows()); var source := (id.0, old(items[id].action.version));
        error == if source !in t.versions || t.versions[source].status == Expired then Some(SourceUnavailable)
          else if !x.stored then Some(StorageFailed)
          else if (id.0, t.files[id.0].currentVersion + 1) in t.versions || VersionIdTaken(t.versions, x.versionId) then Some(BatchFailed)
          else None
      ensures error.Some? ==> Now() == old(Now())
      ensures error.None? ==>
        var n := old(db.files)[id.0].currentVersion + 1; var source := (id.0, old(items[id].action.version));
        && (id.0, n) in db.versions && source in old(db.versions)
        && db.versions[(id.0, n)] == VersionRow(x.versionId, old(db.versions)[source].hash, n - 1, Some(source.1), Current)
        && db.files == old(db.files)[id.0 := old(db.files)[id.0].(currentVersion := n, currentHash := Some(old(db.versions)[source].hash))]
      ensures error.None? ==>
        && db.Rows() == Applied(old(db.Rows()), id.0, old(items[id].action), x.versionId) && id.0 in db.files
        && history == old(history) + [SnapshotOf(id.0, db.files[id.0], x.now)]
        && items == old(items)[id := old(items[id]).(status := ItemDone)]
    {
      var file := db.files[id.0];
      var source := (id.0, items[id].action.version);
      if source !in db.versions || db.versions[source].status == Expired {
        return Some(SourceUnavailable);
      }
      if !x.stored {
        return Some(StorageFailed);
      }
      if VersionIdTaken(db.versions, x.versionId) {
        return Some(BatchFailed);  // the primary key aborts the transaction
      }
      var batch := Advance(x.versionId, id.0, file.workspace, file.currentVersion, db.versions[source].hash, Some(source.1), -1);
      var ok := db.RunRewind(batch);
      if !ok {
        return Some(BatchFailed);
      }
      items := items[id := items[id].(status := ItemDone)];
      history := history + [SnapshotOf(id.0, db.files[id.0], x.now)];
      error := None;
    }

    /** The body of the loop over the items. */
    method TryOne(id: ItemId, x: Try) returns (done: bool)
      requires id in items
      modifies this`history, this`items, db
      ensures Now() == TryItem(old(Now()), id, x)
      ensures done <==> IsDone(items, id)
      // an attempt is counted once the file is found idle
      ensures id in items && items[id].attempts == old(items[id].attempts) +
        if old(items[id].action.NoOp? || UploadOpen(db.intents, id.0) || id.0 !in db.files) || x.locked then 0 else 1
    {
      hide AgedVersions, PathTaken;
      var item := items[id];
      if item.action.NoOp? {
        items := items[id := item.(status := ItemDone)];
        return true;
      }
      if x.locked || UploadOpen(db.intents, id.0) || id.0 !in db.files {
        items := items[id := item.(status := ItemFailed)];
        return false;
      }
      items := items[id := item.(status := ItemRunning, attempts := item.attempts + 1)];
      var error: Option<RewindError>;
      if item.action.RestoreVersion? {
        error := CompleteVersion(id, x);
      } else {
        error := CompleteSimple(id, x);
      }
      if error.Some? {
        items := items[id := items[id].(status := ItemFailed)];
      }
      done := error.None?;
    }

    /** executeRewindOperation over the selected items; it may stop dead at item `stop`. */
    method Execute(p: Pass) returns (ended: Option<OperationStatus>)
      requires Valid() && !p.retry && WellFormed(p) && Selected(items, p.order)
      modifies this, db
      ensures Valid()
      ensures Now() == PassResult(old(Now()), p)
      ensures ended == PassStatus(old(Now()), p)
      ensures ended.Some? ==> status == ended.value
    {
      hide TryItem, Obstacle, Applied, Undone, Tries, After, Selected, Step;
      ghost var before := Now();
      SelectedParts(items, p.order);
      if status == Completed {
        CompletedPass(before, p);
        return Some(Completed);
      }
      status := Running;
      var done := Sweep(p);
      if p.stop < |p.order| {
        if p.marked {
          MarkedRunning(Now(), p.order[p.stop]);
          var item := items[p.order[p.stop]];
          items := items[p.order[p.stop] := item.(status := ItemRunning, attempts := item.attempts + 1)];
        }
        return None;
      }
      var pending := |Undone(items)|;
      status := if pending == 0 then Completed else if done > 0 then Partial else Failed;
      ended := Some(status);
    }

    /** The loop over the items, up to where the pass ends. */
    method Sweep(p: Pass) returns (done: nat)
      requires WellFormed(p) && (forall i, j | 0 <= i < j < |p.order| :: p.order[i] != p.order[j])
      requires forall k | 0 <= k < |p.order| :: p.order[k] in Undone(items)
      modifies this`history, this`items, db
      ensures Now() == After(old(Now()), Tries(p.order, p.tries, p.stop))
      ensures done <= p.stop && |Undone(items)| == |Undone(old(items))| - done
      ensures forall k | p.stop <= k < |p.order| :: p.order[k] in Undone(items)
    {
      hide TryItem, Obstacle, Applied, Undone, Tries, After, Step, IsDone;
      ghost var before := Now();
      NothingTried(before, p.order, p.tries);
      done := 0;
      for n := 0 to p.stop
        invariant Now() == After(before, Tries(p.order, p.tries, n))
        invariant done <= n && |Undone(items)| == |Undone(before.items)| - done
        invariant forall k | n <= k < |p.order| :: p.order[k] in Undone(items)
      {
        ghost var was := Now();
        StillUndone(items, p.order[n]);
        var ok := TryOne(p.order[n], p.tries[n]);
        SweepSplits(before, p.order, p.tries, n);
        OneTried(was, p.order[n], p.tries[n]);
        if ok {
          done := done + 1;
        }
      }
    }

    /** handleRewindRetry: failed items become pending again, then another pass. */
    method Retry(p: Pass) returns (ended: Option<OperationStatus>)
      requires Valid() && p.retry && WellFormed(p) && Selected(Step(Rewinding(db.Rows(), history, items), ResetFailed).items, p.order)
      modifies this, db
      ensures Valid()
      ensures Now() == PassResult(old(Now()), p)
      ensures ended == PassStatus(old(Now()), p)
    {
      hide PassResult, PassStatus, Selected, Undone;
      RetryIsPass(Now(), p);
      DoneMeansNoneFailed(Now());
      items := map id | id in items :: if items[id].status == ItemFailed then items[id].(status := ItemPending) else items[id];
      ended := Execute(p.(retry := false));
    }
  }

  /** handleRewindExecute up to its first pass: a plan that leaves any candidate without a known past
      is refused as a whole. */
  method StartRewind(db: Database, w: Workspace, candidates: seq<FileId>, time: Time) returns (op: RewindOperation?)
    requires w.t == db.Rows()
    requires forall i | 0 <= i < |candidates| :: candidates[i] in w.t.files
    requires forall i, j | 0 <= i < j < |candidates| :: candidates[i] != candidates[j]
    ensures op == null <==> exists f :: f in candidates && f in w.t.files && Unsupported(w, f, time)
    ensures op != null ==> fresh(op) && op.Valid() && op.db == db && Prepared(w, SetOf(candidates), time, op.Now())
  {
    var actions, unsupported := PlanRewind(w, candidates, time);
    if |unsupported| > 0 {
      assert unsupported[0] in unsupported;
      return null;
    }
    op := new RewindOperation(db, w, candidates, time, actions);
  }

  lemma DoneMeansNoneFailed(s: Rewinding)
    ensures Undone(s.items) == {} ==> Undone(Step(s, ResetFailed).items) == {}
  {
    StepUndone(s, ResetFailed);
  }

  lemma SelectedParts(items: map<ItemId, Item>, order: seq<ItemId>)
    requires Selected(items, order)
    ensures (forall i, j | 0 <= i < j < |order| :: order[i] != order[j]) && forall k | 0 <= k < |order| :: order[k] in Undone(items)
    ensures |order| <= |Undone(items)|
  {
    hide Undone, InActionOrder;
  }

  /** An operation that is completed selects nothing. */
  lemma CompletedPass(s: Rewinding, p: Pass)
    requires WellFormed(p) && !p.retry && Selected(s.items, p.order) && Undone(s.items) == {}
    ensures PassResult(s, p) == s && PassStatus(s, p) == Some(Completed)
  {
    hide InActionOrder, Undone;
    NothingTried(s, p.order, p.tries);
  }

  lemma NothingTried(s: Rewinding, order: seq<ItemId>, tries: seq<Try>)
    requires |order| == |tries|
    ensures After(s, Tries(order, tries, 0)) == s
  {
    assert Tries(order, tries, 0) == [];
  }

  lemma StillUndone(items: map<ItemId, Item>, id: ItemId)
    requires id in Undone(items)
    ensures id in items
  {
  }

  lemma MarkedRunning(s: Rewinding, id: ItemId)
    requires id in Undone(s.items)
    ensures id in s.items
    ensures Step(s, Begun(id)) == s.(items := s.items[id := s.items[id].(status := ItemRunning, attempts := s.items[id].attempts + 1)])
  {
  }

  /** One try takes one item off the undone ones, or none. */
  lemma OneTried(s: Rewinding, id: ItemId, x: Try)
    requires id in Undone(s.items)
    ensures Step(s, Tried(id, x)) == TryItem(s, id, x)
    ensures var items' := TryItem(s, id, x).items;
      Undone(items') == (if IsDone(items', id) then Undone(s.items) - {id} else Undone(s.items))
  {
    hide Obstacle, Applied;
  }
}
