/** What any run of a rewind operation reaches: passes in any order, crashes, failures, retries. */
module RewindRuns {
  import opened Wrappers
  import opened CloudTables
  import opened RewindPlan

  /** What a run does to the tables: tries an item, crashes after marking one, resets failed ones. */
  datatype Event = Tried(id: ItemId, x: Try) | Begun(id: ItemId) | ResetFailed

  function WithStatus(s: Rewinding, id: ItemId, status: ItemStatus): Rewinding
    requires id in s.items
  {
    s.(items := s.items[id := s.items[id].(status := status)])
  }

  predicate IsDone(items: map<ItemId, Item>, id: ItemId) {
    id in items && items[id].status == ItemDone
  }

  /** Only items that are not DONE are selected. */
  function Step(s: Rewinding, e: Event): Rewinding {
    match e
    case Tried(id, x) => if id in s.items && !IsDone(s.items, id) then TryItem(s, id, x) else s
    case Begun(id) =>
      if id in s.items && !IsDone(s.items, id)
      then s.(items := s.items[id := s.items[id].(status := ItemRunning, attempts := s.items[id].attempts + 1)]) else s
    case ResetFailed =>
      s.(items := map id | id in s.items :: if s.items[id].status == ItemFailed then s.items[id].(status := ItemPending) else s.items[id])
  }

  function After(s: Rewinding, events: seq<Event>): Rewinding {
    if events == [] then s else Step(After(s, events[..|events| - 1]), events[|events| - 1])
  }

  lemma AfterOneMore(s: Rewinding, events: seq<Event>, e: Event)
    ensures After(s, events + [e]) == Step(After(s, events), e)
  {
    assert (events + [e])[..|events + [e]| - 1] == events;
  }

  // ---------------------------------------------------------------- what the planned workspace is like

  /** Snapshots never name a version the file did not have, and the pointers are real. */
  ghost predicate LogReal(w: Workspace) {
    && Consistent(w.t)
    && forall s | s in w.history :: s.fileId in w.t.files && s.contentVersion <= w.t.files[s.fileId].currentVersion
  }

  function HashAt(t: Tables, f: FileId, version: nat): Option<Hash> {
    if (f, version) in t.versions then Some(t.versions[(f, version)].hash) else None
  }

  lemma {:induction false} LastIsInLog(history: seq<Snapshot>, f: FileId, time: Time)
    ensures var last := LastAt(history, f, time);
      last.Some? ==> last.value in history && last.value.fileId == f && last.value.createdAt <= time
  {
    LastAtIsTheLatest(history, f, time);
  }

  // ---------------------------------------------------------------- where a run stands

  /** The row of f that the finished items imply. */
  function Implied(w: Workspace, items: map<ItemId, Item>, f: FileId): FileRow
    requires f in w.t.files
  {
    var row := w.t.files[f];
    var moved := if IsDone(items, (f, KRestorePath)) then Target(row, items[(f, KRestorePath)].action) else row;
    var marked := if IsDone(items, (f, KRestoreStatus)) then Target(moved, items[(f, KRestoreStatus)].action)
      else if IsDone(items, (f, KTrashNew)) then moved.(status := Trashed) else moved;
    if IsDone(items, (f, KRestoreVersion)) && items[(f, KRestoreVersion)].action.RestoreVersion?
    then marked.(currentVersion := row.currentVersion + 1, currentHash := HashAt(w.t, f, items[(f, KRestoreVersion)].action.version))
    else marked
  }

  ghost predicate RowsImplied(w: Workspace, t: Tables, items: map<ItemId, Item>) {
    t.files.Keys == w.t.files.Keys && forall f | f in w.t.files :: t.files[f] == Implied(w, items, f)
  }

  ghost predicate Faithful(w: Workspace, candidates: set<FileId>, time: Time, s: Rewinding) {
    && ItemsPlanned(w, candidates, time, s.items)
    && RowsImplied(w, s.t, s.items)
    && Consistent(s.t) && Grows(w.t, s.t)
  }

  lemma PlannedHereFits(w: Workspace, candidates: set<FileId>, time: Time, items: map<ItemId, Item>)
    requires ItemsOf(w, candidates, time, items)
    ensures RowsImplied(w, w.t, items)
  {
  }

  /** The wanted source version exists and keeps its content. */
  lemma SourceIsReal(w: Workspace, time: Time, f: FileId, version: nat)
    requires LogReal(w) && f in w.t.files && Wanted(w, time, f, RestoreVersion(version))
    ensures (f, version) in w.t.versions && 1 <= version < w.t.files[f].currentVersion
  {
    LastIsInLog(w.history, f, time);
    hide Linked, PointersReal, UniqueIds, RetentionShape, IntentsSettled, UniqueKeys;
  }

  /** An item keeps its action, whatever its status. */
  lemma StillPlanned(w: Workspace, candidates: set<FileId>, time: Time, items: map<ItemId, Item>, items': map<ItemId, Item>)
    requires ItemsPlanned(w, candidates, time, items)
    requires items'.Keys == items.Keys && forall id | id in items :: items'[id].action == items[id].action
    ensures ItemsPlanned(w, candidates, time, items')
  {
    hide Wanted;
  }

  lemma ImpliedSame(w: Workspace, items: map<ItemId, Item>, items': map<ItemId, Item>, f: FileId)
    requires f in w.t.files
    requires forall k: Kind :: IsDone(items, (f, k)) == IsDone(items', (f, k))
    requires forall k: Kind | IsDone(items, (f, k)) && IsDone(items', (f, k)) :: items'[(f, k)].action == items[(f, k)].action
    ensures Implied(w, items', f) == Implied(w, items, f)
  {
  }

  /** Finishing one more item moves the implied row by exactly that item's change. */
  lemma ImpliedNext(w: Workspace, candidates: set<FileId>, time: Time, items: map<ItemId, Item>, id: ItemId, item: Item)
    requires ItemsPlanned(w, candidates, time, items) && id in items && !IsDone(items, id)
    requires item.action == items[id].action && item.status == ItemDone
    ensures var row := Implied(w, items, id.0);
      Implied(w, items[id := item], id.0) ==
        if item.action.RestoreVersion? then row.(currentVersion := w.t.files[id.0].currentVersion + 1, currentHash := HashAt(w.t, id.0, item.action.version))
        else Target(row, item.action)
  {
    hide LastAt, HashAt;
    var f := id.0;
    assert forall k: Kind | (f, k) in items :: KindOf(items[(f, k)].action) == k;
    assert !((f, KTrashNew) in items && (f, KRestoreStatus) in items);
  }

  lemma ImpliedVersion(w: Workspace, items: map<ItemId, Item>, f: FileId)
    requires f in w.t.files && !IsDone(items, (f, KRestoreVersion))
    ensures Implied(w, items, f).currentVersion == w.t.files[f].currentVersion
  {
  }

  lemma NotDoneYet(w: Workspace, candidates: set<FileId>, time: Time, s: Rewinding, id: ItemId, item: Item)
    requires Faithful(w, candidates, time, s) && id in s.items && !IsDone(s.items, id)
    requires item.action == s.items[id].action && item.status != ItemDone
    ensures Faithful(w, candidates, time, s.(items := s.items[id := item]))
  {
    hide Consistent, Grows, ItemsPlanned, Implied;
    var items' := s.items[id := item];
    StillPlanned(w, candidates, time, s.items, items');
    forall f | f in w.t.files ensures s.t.files[f] == Implied(w, items', f) {
      ImpliedSame(w, s.items, items', f);
    }
  }

  lemma TryIsFaithful(w: Workspace, candidates: set<FileId>, time: Time, s: Rewinding, id: ItemId, x: Try)
    requires LogReal(w) && Faithful(w, candidates, time, s) && id in s.items && !IsDone(s.items, id)
    ensures Faithful(w, candidates, time, TryItem(s, id, x))
  {
    hide Faithful, Obstacle, Applied, LogReal;
    if Obstacle(s.t, id.0, s.items[id].action, x).None? {
      DoneIsFaithful(w, candidates, time, s, id, x);
    } else {
      NotDoneYet(w, candidates, time, s, id, TryItem(s, id, x).items[id]);
      assert TryItem(s, id, x) == s.(items := s.items[id := TryItem(s, id, x).items[id]]);
    }
  }

  lemma DoneIsFaithful(w: Workspace, candidates: set<FileId>, time: Time, s: Rewinding, id: ItemId, x: Try)
    requires LogReal(w) && Faithful(w, candidates, time, s) && id in s.items && !IsDone(s.items, id)
    requires Obstacle(s.t, id.0, s.items[id].action, x).None?
    ensures Faithful(w, candidates, time, TryItem(s, id, x))
  {
    hide Consistent, Grows, ItemsPlanned, Implied, Obstacle, LogReal, Applied;
    var s' := TryItem(s, id, x);
    StillPlanned(w, candidates, time, s.items, s'.items);
    AppliedKeeps(s.t, id.0, s.items[id].action, x);
    GrowsTrans(w.t, s.t, s'.t);
    AppliedRow(w, candidates, time, s, id, x);
    PlannedIsFile(w, candidates, time, s.items, id);
    ImpliedNext(w, candidates, time, s.items, id, s'.items[id]);
    if s.items[id].action.RestoreVersion? { ImpliedVersion(w, s.items, id.0); }
    forall f | f in w.t.files && f != id.0 ensures s'.t.files[f] == Implied(w, s'.items, f) {
      ImpliedSame(w, s.items, s'.items, f);
    }
  }

  lemma PlannedIsFile(w: Workspace, candidates: set<FileId>, time: Time, items: map<ItemId, Item>, id: ItemId)
    requires ItemsPlanned(w, candidates, time, items) && id in items
    ensures id.0 in w.t.files && KindOf(items[id].action) == id.1 && Wanted(w, time, id.0, items[id].action)
  {
  }

  /** What the batch of an item does to the file rows. */
  lemma AppliedRow(w: Workspace, candidates: set<FileId>, time: Time, s: Rewinding, id: ItemId, x: Try)
    requires LogReal(w) && Faithful(w, candidates, time, s) && id in s.items
    requires Obstacle(s.t, id.0, s.items[id].action, x).None?
    ensures id.0 in s.t.files
    ensures var a := s.items[id].action; var row := s.t.files[id.0];
      Applied(s.t, id.0, a, x.versionId).files == s.t.files[id.0 :=
        if a.RestoreVersion? then row.(currentVersion := row.currentVersion + 1, currentHash := HashAt(w.t, id.0, a.version))
        else Target(row, a)]
  {
    hide Consistent, Grows, ItemsPlanned, Implied, Obstacle, LogReal, Applied, Wanted;
    var a := s.items[id].action;
    PlannedIsFile(w, candidates, time, s.items, id);
    if a.RestoreVersion? {
      SourceIsReal(w, time, id.0, a.version);
      VersionRowIs(w, s, id.0, a, x);
    } else {
      MetadataRow(s.t, id.0, a, x);
    }
  }

  lemma AppliedKeeps(t: Tables, f: FileId, a: Action, x: Try)
    requires Consistent(t) && Obstacle(t, f, a, x).None?
    ensures Consistent(Applied(t, f, a, x.versionId)) && Grows(t, Applied(t, f, a, x.versionId))
  {
    hide Consistent, Grows, MetadataConflict, UploadOpen, RewindBatch;
    GrowsRefl(t);
    if a.RestoreVersion? {
      RewindKeeps(t, VersionBatch(t, f, a.version, x.versionId));
    } else if f in t.files {
      var row := Target(t.files[f], a);
      SetMetadataKeeps(t, f, row.logicalName, row.relativePath, row.status);
    }
  }

  lemma MetadataRow(t: Tables, f: FileId, a: Action, x: Try)
    requires Obstacle(t, f, a, x).None? && f in t.files && !a.RestoreVersion?
    ensures Applied(t, f, a, x.versionId).files == t.files[f := Target(t.files[f], a)]
  {
    hide MetadataConflict, UploadOpen;
  }

  lemma VersionRowIs(w: Workspace, s: Rewinding, f: FileId, a: Action, x: Try)
    requires Grows(w.t, s.t) && a.RestoreVersion? && Obstacle(s.t, f, a, x).None? && (f, a.version) in w.t.versions
    ensures f in s.t.files && Applied(s.t, f, a, x.versionId).files
      == s.t.files[f := s.t.files[f].(currentVersion := s.t.files[f].currentVersion + 1, currentHash := HashAt(w.t, f, a.version))]
  {
    hide UploadOpen, AgedVersions;
  }

  lemma StepIsFaithful(w: Workspace, candidates: set<FileId>, time: Time, s: Rewinding, e: Event)
    requires LogReal(w) && Faithful(w, candidates, time, s)
    ensures Faithful(w, candidates, time, Step(s, e))
  {
    match e
    case Tried(id, x) =>
      hide Faithful, TryItem;
      if id in s.items && !IsDone(s.items, id) { TryIsFaithful(w, candidates, time, s, id, x); }
    case Begun(id) =>
      hide Faithful;
      if id in s.items && !IsDone(s.items, id) { NotDoneYet(w, candidates, time, s, id, Step(s, e).items[id]); }
    case ResetFailed => hide Faithful; ResetIsFaithful(w, candidates, time, s);
  }

  lemma ResetIsFaithful(w: Workspace, candidates: set<FileId>, time: Time, s: Rewinding)
    requires Faithful(w, candidates, time, s)
    ensures Faithful(w, candidates, time, Step(s, ResetFailed))
  {
    hide Consistent, Grows, ItemsPlanned, Implied;
    var items' := Step(s, ResetFailed).items;
    StillPlanned(w, candidates, time, s.items, items');
    forall f | f in w.t.files ensures s.t.files[f] == Implied(w, items', f) {
      ImpliedSame(w, s.items, items', f);
    }
  }

  /** The operation as it is when its items have just been inserted. */
  ghost predicate Prepared(w: Workspace, candidates: set<FileId>, time: Time, s: Rewinding) {
    s.t == w.t && s.history == w.history && ItemsOf(w, candidates, time, s.items)
  }

  /** At every point of every run the tables are exactly what the finished items imply. */
  lemma {:induction false} AlwaysFaithful(w: Workspace, candidates: set<FileId>, time: Time, s: Rewinding, events: seq<Event>)
    requires LogReal(w) && Prepared(w, candidates, time, s)
    ensures Faithful(w, candidates, time, After(s, events))
  {
    hide Step, Grows, Consistent;
    if events == [] {
      GrowsRefl(w.t);
      PlannedHereFits(w, candidates, time, s.items);
    } else {
      hide Faithful, Prepared;
      AlwaysFaithful(w, candidates, time, s, events[..|events| - 1]);
      StepIsFaithful(w, candidates, time, After(s, events[..|events| - 1]), events[|events| - 1]);
    }
  }

  predicate AllDone(items: map<ItemId, Item>) {
    forall id | id in items :: items[id].status == ItemDone
  }

  /** The content the file had at `time` according to its snapshot. */
  function HashThen(w: Workspace, past: Snapshot): Option<Hash> {
    if past.contentVersion == 0 then None else HashAt(w.t, past.fileId, past.contentVersion)
  }

  /** The file is as it was at `time`; its content too, unless it had none then and has some now. */
  ghost predicate InThePast(w: Workspace, time: Time, f: FileId, row: FileRow)
    requires f in w.t.files
  {
    match LastAt(w.history, f, time)
    case None => row.status == Trashed && CreatedAfter(w, f, time)
    case Some(past) =>
      && row.logicalName == past.logicalName && row.relativePath == past.relativePath && row.status == past.status
      && (row.currentHash == HashThen(w, past) <==> past.contentVersion > 0 || w.t.files[f].currentVersion == 0)
  }

  /** Once every item is DONE, in whatever order, over however many passes, crashes and retries:
      every candidate is back in the past, files created later are in the trash, every other file is
      untouched, and no history was lost: version numbers only grew, by at most one per file. */
  lemma RewindReachesThePast(w: Workspace, candidates: set<FileId>, time: Time, s: Rewinding, events: seq<Event>)
    requires LogReal(w) && Prepared(w, candidates, time, s) && AllDone(After(s, events).items)
    requires forall f | f in candidates && f in w.t.files :: !Unsupported(w, f, time)
    ensures var t := After(s, events).t;
      && Consistent(t) && Grows(w.t, t) && t.files.Keys == w.t.files.Keys
      && (forall f | f in w.t.files && f in candidates :: f in t.files && InThePast(w, time, f, t.files[f])
            && w.t.files[f].currentVersion <= t.files[f].currentVersion <= w.t.files[f].currentVersion + 1)
      && (forall f | f in w.t.files && f !in candidates :: t.files[f] == w.t.files[f])
  {
    AlwaysFaithful(w, candidates, time, s, events);
    hide After, LogReal, Prepared, ItemsOf, InThePast, Unsupported, Consistent, Grows, Implied, ItemsPlanned;
    var s' := After(s, events);
    forall f | f in w.t.files && f in candidates ensures InThePast(w, time, f, s'.t.files[f])
      && w.t.files[f].currentVersion <= s'.t.files[f].currentVersion <= w.t.files[f].currentVersion + 1
    {
      ImpliedIsPast(w, candidates, time, s'.items, f);
    }
    forall f | f in w.t.files && f !in candidates ensures s'.t.files[f] == w.t.files[f] {
      NoItemNoChange(w, candidates, time, s'.items, f);
    }
  }

  lemma NoItemNoChange(w: Workspace, candidates: set<FileId>, time: Time, items: map<ItemId, Item>, f: FileId)
    requires ItemsPlanned(w, candidates, time, items) && f in w.t.files && f !in candidates
    ensures Implied(w, items, f) == w.t.files[f]
  {
    hide Wanted;
  }

  /** Of a candidate exactly the wanted actions are done. */
  lemma DoneIsWanted(w: Workspace, candidates: set<FileId>, time: Time, items: map<ItemId, Item>, f: FileId, a: Action)
    requires ItemsPlanned(w, candidates, time, items) && AllDone(items) && f in candidates && f in w.t.files
    ensures Wanted(w, time, f, a) ==> IsDone(items, (f, KindOf(a))) && items[(f, KindOf(a))].action == a
    ensures IsDone(items, (f, KindOf(a))) ==>
      Wanted(w, time, f, items[(f, KindOf(a))].action) && KindOf(items[(f, KindOf(a))].action) == KindOf(a)
  {
    hide Wanted;
  }

  lemma ImpliedIsPast(w: Workspace, candidates: set<FileId>, time: Time, items: map<ItemId, Item>, f: FileId)
    requires LogReal(w) && ItemsPlanned(w, candidates, time, items) && AllDone(items)
    requires f in candidates && f in w.t.files && !Unsupported(w, f, time)
    ensures InThePast(w, time, f, Implied(w, items, f))
    ensures w.t.files[f].currentVersion <= Implied(w, items, f).currentVersion <= w.t.files[f].currentVersion + 1
  {
    hide LogReal, ItemsPlanned, AllDone;
    DoneIsWanted(w, candidates, time, items, f, TrashNew);
    match LastAt(w.history, f, time)
    case None =>
      DoneIsWanted(w, candidates, time, items, f, RestorePath("", ""));
      DoneIsWanted(w, candidates, time, items, f, RestoreStatus(Active));
      DoneIsWanted(w, candidates, time, items, f, RestoreVersion(0));
    case Some(past) =>
      DoneIsWanted(w, candidates, time, items, f, RestorePath(past.logicalName, past.relativePath));
      DoneIsWanted(w, candidates, time, items, f, RestoreStatus(past.status));
      DoneIsWanted(w, candidates, time, items, f, RestoreVersion(past.contentVersion));
      ContentFacts(w, time, f, past);
  }

  lemma ContentFacts(w: Workspace, time: Time, f: FileId, past: Snapshot)
    requires LogReal(w) && f in w.t.files && LastAt(w.history, f, time) == Some(past)
    ensures past.fileId == f
    ensures past.contentVersion > 0 ==> HashAt(w.t, f, past.contentVersion).Some?
    ensures w.t.files[f].currentVersion > 0 ==>
      w.t.files[f].currentHash == HashAt(w.t, f, w.t.files[f].currentVersion) && w.t.files[f].currentHash.Some?
    ensures w.t.files[f].currentVersion == 0 ==> w.t.files[f].currentHash == None
    ensures past.contentVersion <= w.t.files[f].currentVersion
  {
    LastIsInLog(w.history, f, time);
    assert PairReal(w.t, f, w.t.files[f].currentVersion, w.t.files[f].currentHash);
    hide Linked, PointersReal, UniqueIds, RetentionShape, IntentsSettled, UniqueKeys, LastAt;
  }

  // ---------------------------------------------------------------- at most once

  lemma {:induction false} DoneNeverRegresses(s: Rewinding, events: seq<Event>, id: ItemId)
    requires IsDone(s.items, id)
    ensures IsDone(After(s, events).items, id)
  {
    hide TryItem;
    if events != [] {
      DoneNeverRegresses(s, events[..|events| - 1], id);
      DoneStays(After(s, events[..|events| - 1]), events[|events| - 1], id);
    }
  }

  lemma DoneStays(s: Rewinding, e: Event, id: ItemId)
    requires IsDone(s.items, id)
    ensures IsDone(Step(s, e).items, id)
  {
    hide Obstacle, Applied;
  }

  /** Whether e changes the tables or the log on behalf of item id. */
  predicate TakesEffect(s: Rewinding, e: Event, id: ItemId) {
    e.Tried? && e.id == id && !IsDone(s.items, id) && IsDone(Step(s, e).items, id)
  }

  function TimesEffective(s: Rewinding, events: seq<Event>, id: ItemId): nat {
    if events == [] then 0
    else
      TimesEffective(s, events[..|events| - 1], id)
        + if TakesEffect(After(s, events[..|events| - 1]), events[|events| - 1], id) then 1 else 0
  }

  /** However often an item is tried, it takes effect at most once, and exactly when it ends DONE;
      and a step on behalf of no item's completion leaves tables and log alone. */
  lemma {:induction false} EffectiveOnce(s: Rewinding, events: seq<Event>, id: ItemId)
    requires id in s.items && s.items[id].status == ItemPending
    ensures id in After(s, events).items
    ensures TimesEffective(s, events, id) == if IsDone(After(s, events).items, id) then 1 else 0
  {
    hide TryItem;
    if events != [] {
      var n := |events| - 1;
      EffectiveOnce(s, events[..n], id);
      OneStepEffect(After(s, events[..n]), events[n], id);
    }
  }

  lemma OneStepEffect(s: Rewinding, e: Event, id: ItemId)
    requires id in s.items
    ensures id in Step(s, e).items
    ensures IsDone(Step(s, e).items, id) <==> IsDone(s.items, id) || TakesEffect(s, e, id)
  {
    hide Obstacle, Applied;
  }

  lemma NoEffectNoChange(s: Rewinding, e: Event)
    requires forall id | id in s.items :: !TakesEffect(s, e, id)
    ensures Step(s, e).t == s.t && Step(s, e).history == s.history
  {
    hide Applied;
    if e.Tried? && e.id in s.items && !IsDone(s.items, e.id) { assert !TakesEffect(s, e, e.id); }
  }

  // ---------------------------------------------------------------- undoing a rewind

  predicate LaterThan(e: Event, time: Time) {
    e.Tried? ==> time < e.x.now
  }

  /** A rewind only appends to the log. */
  lemma {:induction false} LogExtends(s: Rewinding, events: seq<Event>, time: Time)
    requires forall e | e in events :: LaterThan(e, time)
    ensures var h := After(s, events).history;
      |s.history| <= |h| && h[..|s.history|] == s.history && forall x | x in h[|s.history|..] :: time < x.createdAt
  {
    if events != [] {
      var n := |events| - 1;
      LogExtends(s, events[..n], time);
      assert LaterThan(events[n], time);
      OneMoreSnapshot(After(s, events[..n]), events[n], time);
    }
  }

  lemma OneMoreSnapshot(s: Rewinding, e: Event, time: Time)
    requires LaterThan(e, time)
    ensures var h := Step(s, e).history;
      h == s.history || (|h| == |s.history| + 1 && h[..|s.history|] == s.history && time < h[|s.history|].createdAt)
  {
    hide Obstacle, Applied;
  }

  lemma GrowingKeepsLogReal(w: Workspace, t: Tables)
    requires LogReal(w) && Consistent(t) && Grows(w.t, t)
    ensures LogReal(w.(t := t))
  {
    hide Consistent, VersionsGrow, IntentsGrow;
  }

  lemma OneMoreIsReal(w: Workspace, x: Snapshot)
    requires LogReal(w) && x.fileId in w.t.files && x.contentVersion <= w.t.files[x.fileId].currentVersion
    ensures LogReal(w.(history := w.history + [x]))
  {
    hide Consistent;
  }

  /** The snapshots a rewind writes describe the rows as it left them. */
  lemma TryLogReal(w: Workspace, s: Rewinding, e: Event)
    requires LogReal(Workspace(s.t, w.created, s.history))
    ensures LogReal(Workspace(Step(s, e).t, w.created, Step(s, e).history))
  {
    hide LogReal, Obstacle, Applied, Consistent, Grows;
    if e.Tried? && e.id in s.items && !IsDone(s.items, e.id) && Obstacle(s.t, e.id.0, s.items[e.id].action, e.x).None? {
      var before := Workspace(s.t, w.created, s.history);
      LogIsConsistent(before);
      AppliedKeeps(s.t, e.id.0, s.items[e.id].action, e.x);
      var t := Applied(s.t, e.id.0, s.items[e.id].action, e.x.versionId);
      GrowingKeepsLogReal(before, t);
      if e.id.0 in t.files { OneMoreIsReal(before.(t := t), SnapshotOf(e.id.0, t.files[e.id.0], e.x.now)); }
    }
  }

  lemma LogIsConsistent(w: Workspace)
    requires LogReal(w)
    ensures Consistent(w.t)
  {
  }

  lemma {:induction false} LogStaysReal(w: Workspace, s: Rewinding, events: seq<Event>)
    requires LogReal(Workspace(s.t, w.created, s.history))
    ensures LogReal(Workspace(After(s, events).t, w.created, After(s, events).history))
  {
    hide LogReal, Step;
    if events != [] {
      LogStaysReal(w, s, events[..|events| - 1]);
      TryLogReal(w, After(s, events[..|events| - 1]), events[|events| - 1]);
    }
  }

  /** The log's last word at `time` about each candidate is how the file is now. */
  ghost predicate LogCurrent(w: Workspace, candidates: set<FileId>, time: Time) {
    forall f | f in candidates ::
      && f in w.t.files && LastAt(w.history, f, time).Some?
      && LastAt(w.history, f, time).value == SnapshotOf(f, w.t.files[f], LastAt(w.history, f, time).value.createdAt)
  }

  predicate SameFile(row: FileRow, was: FileRow) {
    row.logicalName == was.logicalName && row.relativePath == was.relativePath && row.status == was.status
    && row.currentHash == was.currentHash
  }

  /** The workspace as a later plan reads it. */
  function Reached(w: Workspace, s: Rewinding): Workspace {
    Workspace(s.t, w.created, s.history)
  }

  /** Rewinding once more, to the moment before the rewind, brings back every file's name, path,
      status and content, even if the first rewind only got half way. */
  lemma RewindCanBeUndone(w: Workspace, candidates: set<FileId>, time: Time, s: Rewinding, events: seq<Event>,
                          before: Time, s2: Rewinding, events2: seq<Event>)
    requires LogReal(w) && Prepared(w, candidates, time, s) && LogCurrent(w, candidates, before)
    requires forall e | e in events :: LaterThan(e, before)
    requires Prepared(Reached(w, After(s, events)), candidates, before, s2)
    requires AllDone(After(s2, events2).items)
    ensures forall f | f in candidates ::
      f in w.t.files && f in After(s2, events2).t.files && SameFile(After(s2, events2).t.files[f], w.t.files[f])
  {
    var half := After(s, events);
    var w1 := Reached(w, half);
    AlwaysFaithful(w, candidates, time, s, events);
    LogStaysReal(w, s, events);
    AllSupported(w, candidates, time, s, events, before);
    hide LogReal, After, Prepared, InThePast, Faithful, LogCurrent, Consistent, Grows, AllDone, LaterThan, Unsupported, SameFile;
    RewindReachesThePast(w1, candidates, before, s2, events2);
    forall f | f in candidates
      ensures f in w.t.files && f in After(s2, events2).t.files && SameFile(After(s2, events2).t.files[f], w.t.files[f])
    {
      UndoneFile(w, candidates, time, before, half, f, After(s2, events2).t.files[f]);
    }
  }

  /** What the rewind itself logged is later than `before`. */
  lemma AllSupported(w: Workspace, candidates: set<FileId>, time: Time, s: Rewinding, events: seq<Event>, before: Time)
    requires Prepared(w, candidates, time, s) && LogCurrent(w, candidates, before) && Faithful(w, candidates, time, After(s, events))
    requires forall e | e in events :: LaterThan(e, before)
    ensures forall f | f in candidates ::
      && LastAt(After(s, events).history, f, before) == LastAt(w.history, f, before)
      && f in w.t.files && f in After(s, events).t.files
      && !Unsupported(Reached(w, After(s, events)), f, before)
  {
    hide LastAt, ItemsOf, ItemsPlanned, Consistent, Grows, Implied, LaterThan, After, SnapshotOf;
    forall f | f in candidates ensures LastAt(After(s, events).history, f, before) == LastAt(w.history, f, before) {
      SameLook(s, events, f, before);
    }
  }

  lemma SameLook(s: Rewinding, events: seq<Event>, f: FileId, before: Time)
    requires forall e | e in events :: LaterThan(e, before)
    ensures LastAt(After(s, events).history, f, before) == LastAt(s.history, f, before)
  {
    hide LastAt, LaterThan, After;
    LogExtends(s, events, before);
    var more := After(s, events).history[|s.history|..];
    assert After(s, events).history == s.history + more;
    LaterSnapshotsDoNotMatter(s.history, more, f, before);
  }

  lemma UndoneFile(w: Workspace, candidates: set<FileId>, time: Time, before: Time, half: Rewinding, f: FileId, row: FileRow)
    requires LogReal(w) && Faithful(w, candidates, time, half) && LogCurrent(w, candidates, before) && f in candidates
    requires f in w.t.files && f in half.t.files && LastAt(half.history, f, before) == LastAt(w.history, f, before)
    requires InThePast(Reached(w, half), before, f, row)
    ensures SameFile(row, w.t.files[f])
  {
    var past := LastAt(w.history, f, before).value;
    ContentFacts(w, before, f, past);
    if past.contentVersion == 0 {
      NothingToRestore(w, candidates, time, half.items, f);
    } else {
      assert HashAt(half.t, f, past.contentVersion) == HashAt(w.t, f, past.contentVersion);
    }
    hide LogReal, Consistent, ItemsPlanned, LastAt, Implied;
  }

  /** A file that never had content is given none. */
  lemma NothingToRestore(w: Workspace, candidates: set<FileId>, time: Time, items: map<ItemId, Item>, f: FileId)
    requires LogReal(w) && ItemsPlanned(w, candidates, time, items) && f in w.t.files && w.t.files[f].currentVersion == 0
    ensures Implied(w, items, f).currentVersion == 0
  {
    if (f, KRestoreVersion) in items {
      SourceIsReal(w, time, f, items[(f, KRestoreVersion)].action.version);
    }
  }

  // ---------------------------------------------------------------- the log stays current

  predicate LogUntil(history: seq<Snapshot>, now: Time) {
    forall s | s in history :: s.createdAt <= now
  }

  lemma {:induction false} LaterLook(history: seq<Snapshot>, f: FileId, now: Time, later: Time)
    requires LogUntil(history, now) && now <= later
    ensures LastAt(history, f, later) == LastAt(history, f, now)
  {
    if history != [] {
      assert history[|history| - 1] in history;
      LaterLook(history[..|history| - 1], f, now, later);
    }
  }

  /** recordFileStateSnapshot */
  function RecordSnapshot(w: Workspace, f: FileId, now: Time): Workspace
    requires f in w.t.files
  {
    w.(history := w.history + [SnapshotOf(f, w.t.files[f], now)])
  }

  /** A snapshot taken after a change of f makes the log current for f and leaves the others' last word. */
  lemma SnapshotMakesCurrent(w: Workspace, files: set<FileId>, f: FileId, now: Time, later: Time)
    requires f in w.t.files && LogUntil(w.history, now) && now <= later && LogCurrent(w, files - {f}, now)
    ensures LogCurrent(RecordSnapshot(w, f, later), files, later) && LogUntil(RecordSnapshot(w, f, later).history, later)
  {
    var w' := RecordSnapshot(w, f, later);
    var n := |w.history|;
    assert w'.history[..n] == w.history;
    forall g | g in files
      ensures LastAt(w'.history, g, later) == if g == f then Some(SnapshotOf(f, w.t.files[f], later)) else LastAt(w.history, g, now)
    {
      LaterLook(w.history, g, now, later);
      LastIsInLog(w.history, g, later);
    }
  }

  /** So every step of a rewind, whose batches write the snapshot together with the change, leaves
      the log current at its own time. */
  lemma StepKeepsLogCurrent(w: Workspace, files: set<FileId>, s: Rewinding, e: Event, now: Time)
    requires LogCurrent(Reached(w, s), files, now) && LogUntil(s.history, now) && (e.Tried? ==> now <= e.x.now)
    ensures var later := if e.Tried? then e.x.now else now;
      LogCurrent(Reached(w, Step(s, e)), files, later) && LogUntil(Step(s, e).history, later)
  {
    var later := if e.Tried? then e.x.now else now;
    forall f | f in files ensures LastAt(s.history, f, later) == LastAt(s.history, f, now) { LaterLook(s.history, f, now, later); }
    if e.Tried? && e.id in s.items && !IsDone(s.items, e.id) && Obstacle(s.t, e.id.0, s.items[e.id].action, e.x).None? {
      var a := s.items[e.id].action;
      var t := Applied(s.t, e.id.0, a, e.x.versionId);
      OthersUntouched(s.t, e.id.0, a, e.x.versionId);
      hide LastAt, Obstacle, Applied;
      if !a.NoOp? && e.id.0 in t.files {
        SnapshotMakesCurrent(Workspace(t, w.created, s.history), files, e.id.0, now, later);
      }
    }
    hide LastAt, Obstacle, Applied;
  }

  lemma OthersUntouched(t: Tables, f: FileId, a: Action, versionId: nat)
    ensures var t' := Applied(t, f, a, versionId);
      t'.files.Keys == t.files.Keys && (forall g | g in t.files && g != f :: t'.files[g] == t.files[g]) && (a.NoOp? ==> t' == t)
  {
    hide AgedVersions;
  }

  // ---------------------------------------------------------------- active paths

  /** No step of a rewind puts two active files at one path. */
  lemma StepKeepsPathsUnique(s: Rewinding, e: Event)
    requires PathsUnique(s.t.files)
    ensures PathsUnique(Step(s, e).t.files)
  {
    hide UploadOpen, VersionIdTaken, NoCase, AgedVersions;
    if e.Tried? && e.id in s.items && !IsDone(s.items, e.id) && Obstacle(s.t, e.id.0, s.items[e.id].action, e.x).None? {
      var a := s.items[e.id].action;
      if !a.NoOp? && !a.RestoreVersion? { MetadataRow(s.t, e.id.0, a, e.x); }
    }
  }
}
