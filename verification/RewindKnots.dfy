/** Which plans can finish: when retrying a rewind completes, read off the plan and the tables before
    its first pass. */
module RewindKnots {
  import opened Wrappers
  import opened CloudTables
  import opened RewindPlan
  import opened RewindRuns
  import opened RewindRetries

  // ---------------------------------------------------------------- what passes keep

  /** A rewind neither opens uploads nor expires versions. */
  ghost predicate SourcesKept(t: Tables, t': Tables) {
    && t'.intents == t.intents
    && forall k | k in t.versions :: k in t'.versions && (t'.versions[k].status == Expired <==> t.versions[k].status == Expired)
  }

  ghost predicate Standing(w: Workspace, candidates: set<FileId>, time: Time, s: Rewinding) {
    Faithful(w, candidates, time, s) && SourcesKept(w.t, s.t)
  }

  lemma AppliedKeepsSources(t: Tables, f: FileId, a: Action, x: Try)
    requires Obstacle(t, f, a, x).None?
    ensures SourcesKept(t, Applied(t, f, a, x.versionId))
  {
    hide UploadOpen, MetadataConflict, VersionIdTaken;
  }

  lemma SourcesKeptOn(a: Tables, b: Tables, c: Tables)
    requires SourcesKept(a, b) && SourcesKept(b, c)
    ensures SourcesKept(a, c)
  {
  }

  lemma StepKeepsSources(s: Rewinding, e: Event)
    ensures SourcesKept(s.t, Step(s, e).t)
  {
    hide Obstacle, Applied;
    if e.Tried? && e.id in s.items && !IsDone(s.items, e.id) && Obstacle(s.t, e.id.0, s.items[e.id].action, e.x).None? {
      AppliedKeepsSources(s.t, e.id.0, s.items[e.id].action, e.x);
    }
  }

  lemma StepStands(w: Workspace, candidates: set<FileId>, time: Time, s: Rewinding, e: Event)
    requires LogReal(w) && Standing(w, candidates, time, s)
    ensures Standing(w, candidates, time, Step(s, e))
  {
    hide LogReal, Faithful, SourcesKept, Step;
    StepIsFaithful(w, candidates, time, s, e);
    StepKeepsSources(s, e);
    SourcesKeptOn(w.t, s.t, Step(s, e).t);
  }

  lemma {:induction false} EventsStand(w: Workspace, candidates: set<FileId>, time: Time, s: Rewinding, events: seq<Event>)
    requires LogReal(w) && Standing(w, candidates, time, s)
    ensures Standing(w, candidates, time, After(s, events))
  {
    hide LogReal, Standing, Step;
    if events != [] {
      EventsStand(w, candidates, time, s, events[..|events| - 1]);
      StepStands(w, candidates, time, After(s, events[..|events| - 1]), events[|events| - 1]);
    }
  }

  lemma PreparedStands(w: Workspace, candidates: set<FileId>, time: Time, s: Rewinding)
    requires LogReal(w) && Prepared(w, candidates, time, s)
    ensures Standing(w, candidates, time, s)
  {
    hide LogReal, Prepared, Faithful;
    AlwaysFaithful(w, candidates, time, s, []);
    assert s.t == w.t by { PreparedTables(w, candidates, time, s); }
  }

  lemma PreparedTables(w: Workspace, candidates: set<FileId>, time: Time, s: Rewinding)
    requires Prepared(w, candidates, time, s)
    ensures s.t == w.t
  {
    hide ItemsOf;
  }

  lemma PassStands(w: Workspace, candidates: set<FileId>, time: Time, s: Rewinding, p: Pass)
    requires LogReal(w) && Standing(w, candidates, time, s) && WellFormed(p)
    ensures Standing(w, candidates, time, PassResult(s, p))
  {
    hide LogReal, Standing, Step, After;
    StepStands(w, candidates, time, s, ResetFailed);
    EventsStand(w, candidates, time, Opened(s, p), Tries(p.order, p.tries, p.stop));
    if p.stop < |p.order| {
      StepStands(w, candidates, time, After(Opened(s, p), Tries(p.order, p.tries, p.stop)), Begun(p.order[p.stop]));
    }
  }

  lemma {:induction false} PassesStand(w: Workspace, candidates: set<FileId>, time: Time, s: Rewinding, passes: seq<Pass>)
    requires LogReal(w) && Standing(w, candidates, time, s) && forall p | p in passes :: WellFormed(p)
    ensures Standing(w, candidates, time, AfterPasses(s, passes)) && Onward(s, AfterPasses(s, passes))
  {
    hide LogReal, Standing, PassResult, Onward, WellFormed;
    if passes == [] {
      SelfOnward(s);
    } else {
      var n := |passes| - 1;
      PassesStand(w, candidates, time, s, passes[..n]);
      PassStands(w, candidates, time, AfterPasses(s, passes[..n]), passes[n]);
      PassOnward(AfterPasses(s, passes[..n]), passes[n]);
      OnwardTrans(s, AfterPasses(s, passes[..n]), AfterPasses(s, passes));
    }
  }

  // ---------------------------------------------------------------- what the plan needs from the tables

  /** No upload is open on the file, and a version to restore is still there. */
  predicate Attainable(t: Tables, f: FileId, a: Action) {
    a.NoOp? ||
    (!UploadOpen(t.intents, f) && (a.RestoreVersion? ==> (f, a.version) in t.versions && t.versions[(f, a.version)].status != Expired))
  }

  predicate AllAttainable(w: Workspace, items: map<ItemId, Item>) {
    forall id | id in items :: Attainable(w.t, id.0, items[id].action)
  }

  /** An attainable item is only ever blocked by another file on its path. */
  lemma BlockedByPath(w: Workspace, candidates: set<FileId>, time: Time, s: Rewinding, id: ItemId)
    requires LogReal(w) && Standing(w, candidates, time, s) && id in s.items
    ensures id.0 in w.t.files && id.0 in s.t.files
    ensures Attainable(w.t, id.0, s.items[id].action) ==>
      (Blocked(s.t, id.0, s.items[id].action) <==> MetadataConflict(s.t.files, id.0, s.items[id].action))
    ensures !Attainable(w.t, id.0, s.items[id].action) ==> Blocked(s.t, id.0, s.items[id].action)
  {
    var a := s.items[id].action;
    PlannedIsFile(w, candidates, time, s.items, id);
    NextIsFree(s.t, id.0);
    if a.RestoreVersion? { SourceIsReal(w, time, id.0, a.version); }
    hide LogReal, ItemsPlanned, Implied, Consistent, Grows, UploadOpen, PathTaken, Wanted;
  }

  lemma NextIsFree(t: Tables, f: FileId)
    requires Consistent(t) && f in t.files
    ensures (f, t.files[f].currentVersion + 1) !in t.versions
  {
    hide Linked, PointersReal, UniqueIds, RetentionShape, IntentsSettled, UniqueKeys;
  }

  // ---------------------------------------------------------------- plans of moves

  predicate Moves(items: map<ItemId, Item>, f: FileId) {
    (f, KRestorePath) in items && items[(f, KRestorePath)].action.RestorePath?
  }

  /** No planned change of g's status. */
  predicate KeepsStatus(items: map<ItemId, Item>, g: FileId) {
    (g, KRestoreStatus) !in items && (g, KTrashNew) !in items
  }

  predicate OnlyMoves(items: map<ItemId, Item>) {
    forall id | id in items :: id.1 != KRestoreStatus && id.1 != KTrashNew
  }

  function MovesTo(items: map<ItemId, Item>, f: FileId): string
    requires Moves(items, f)
  {
    items[(f, KRestorePath)].action.relativePath
  }

  /** g stands at f's past path and will stay there unless it is itself one of S. */
  predicate Holds(w: Workspace, items: map<ItemId, Item>, S: set<FileId>, f: FileId, g: FileId)
    requires f in w.t.files && Moves(items, f)
  {
    && g != f && g in w.t.files && Occupies(w.t.files[g], w.t.files[f].workspace, MovesTo(items, f))
    && (Moves(items, g) ==> g in S) && KeepsStatus(items, g)
  }

  predicate Held(w: Workspace, items: map<ItemId, Item>, S: set<FileId>, f: FileId) {
    f in w.t.files && Moves(items, f) && exists g | g in w.t.files.Keys :: Holds(w, items, S, f, g)
  }

  /** Moves that wait for each other, or for a file that does not move. */
  predicate Knot(w: Workspace, items: map<ItemId, Item>, S: set<FileId>) {
    S != {} && forall f | f in S :: Held(w, items, S, f)
  }

  /** No active file is planned onto a path another file of its workspace is planned onto. */
  predicate DistinctTargets(w: Workspace, items: map<ItemId, Item>) {
    forall f, g | f in w.t.files && g in w.t.files && f != g && Moves(items, f) && Moves(items, g)
      && w.t.files[g].status == Active && w.t.files[g].workspace == w.t.files[f].workspace ::
      !SamePath(MovesTo(items, g), MovesTo(items, f))
  }

  lemma RowOf(w: Workspace, candidates: set<FileId>, time: Time, s: Rewinding, g: FileId)
    requires Faithful(w, candidates, time, s) && g in w.t.files
    ensures g in s.t.files && s.t.files[g].workspace == w.t.files[g].workspace
    ensures KeepsStatus(s.items, g) ==> s.t.files[g].status == w.t.files[g].status
    ensures s.t.files[g].relativePath ==
      if Moves(s.items, g) && IsDone(s.items, (g, KRestorePath)) then MovesTo(s.items, g) else w.t.files[g].relativePath
  {
    hide Consistent, Grows, ItemsPlanned, HashAt;
    assert s.t.files[g] == Implied(w, s.items, g);
    forall k: Kind | (g, k) in s.items ensures KindOf(s.items[(g, k)].action) == k { PlannedIsFile(w, candidates, time, s.items, (g, k)); }
  }

  /** As long as a whole knot is undone, each of its moves is blocked. */
  lemma KnotBlocks(w: Workspace, candidates: set<FileId>, time: Time, s: Rewinding, S: set<FileId>, f: FileId)
    requires Faithful(w, candidates, time, s) && Knot(w, s.items, S) && f in S
    requires forall g | g in S :: (g, KRestorePath) in Undone(s.items)
    ensures Blocked(s.t, f, s.items[(f, KRestorePath)].action)
  {
    hide Faithful, Occupies, Implied, PathTaken, UploadOpen;
    var g := Holder(w, s.items, S, f);
    RowOf(w, candidates, time, s, g);
    RowOf(w, candidates, time, s, f);
    assert Moves(s.items, g) ==> !IsDone(s.items, (g, KRestorePath));
    StillOccupies(w.t.files[g], s.t.files[g], w.t.files[f].workspace, MovesTo(s.items, f));
    Taken(s.t.files, f, g, MovesTo(s.items, f));
  }

  lemma Holder(w: Workspace, items: map<ItemId, Item>, S: set<FileId>, f: FileId) returns (g: FileId)
    requires Knot(w, items, S) && f in S
    ensures f in w.t.files && Moves(items, f) && Holds(w, items, S, f, g)
  {
    hide Holds;
    assert Held(w, items, S, f);
    g :| g in w.t.files.Keys && Holds(w, items, S, f, g);
  }

  lemma StillOccupies(was: FileRow, row: FileRow, workspace: nat, path: string)
    requires Occupies(was, workspace, path)
    requires row.status == was.status && row.workspace == was.workspace && row.relativePath == was.relativePath
    ensures Occupies(row, workspace, path)
  {
  }

  lemma Taken(files: map<FileId, FileRow>, f: FileId, g: FileId, path: string)
    requires f in files && g in files && g != f && Occupies(files[g], files[f].workspace, path)
    ensures PathTaken(files, f, files[f].workspace, path)
  {
  }

  lemma KnotOfActions(w: Workspace, items: map<ItemId, Item>, items': map<ItemId, Item>, S: set<FileId>)
    requires items'.Keys == items.Keys && (forall id | id in items :: items'[id].action == items[id].action)
    requires Knot(w, items, S)
    ensures Knot(w, items', S)
  {
    hide Occupies;
    forall f | f in S ensures Held(w, items', S, f) {
      assert Held(w, items, S, f);
      var g :| g in w.t.files.Keys && Holds(w, items, S, f, g);
      assert Holds(w, items', S, f, g);
    }
  }

  /** Whatever else the plan holds and whatever happens: of a knot no move is ever done. */
  lemma {:induction false} KnotNeverUndone(w: Workspace, candidates: set<FileId>, time: Time, s: Rewinding, S: set<FileId>, events: seq<Event>)
    requires LogReal(w) && Prepared(w, candidates, time, s) && Knot(w, s.items, S)
    ensures forall f | f in S :: (f, KRestorePath) in Undone(After(s, events).items)
  {
    hide Step, LogReal, Consistent, Grows, Faithful, Blocked, Knot, Undone, ItemsOf;
    if events == [] {
      KnotPending(w, candidates, time, s, S);
    } else {
      var before := After(s, events[..|events| - 1]);
      var e := events[|events| - 1];
      KnotNeverUndone(w, candidates, time, s, S, events[..|events| - 1]);
      AlwaysFaithful(w, candidates, time, s, events[..|events| - 1]);
      AfterOnward(s, events[..|events| - 1]);
      KnotOfActions(w, s.items, before.items, S);
      forall f | f in S ensures (f, KRestorePath) in Undone(Step(before, e).items) {
        KnotBlocks(w, candidates, time, before, S, f);
        BlockedStays(before, e, (f, KRestorePath));
      }
    }
  }

  lemma KnotPending(w: Workspace, candidates: set<FileId>, time: Time, s: Rewinding, S: set<FileId>)
    requires Prepared(w, candidates, time, s) && Knot(w, s.items, S)
    ensures forall f | f in S :: (f, KRestorePath) in Undone(s.items)
  {
    hide ItemsPlanned, Holds;
    forall f | f in S ensures (f, KRestorePath) in Undone(s.items) { assert Held(w, s.items, S, f); }
  }

  lemma BlockedStays(s: Rewinding, e: Event, id: ItemId)
    requires id in Undone(s.items) && Blocked(s.t, id.0, s.items[id].action)
    ensures id in Undone(Step(s, e).items)
  {
    hide TryItem, Blocked;
    if e.Tried? && e.id == id { BlockedTryFails(s, id, e.x); }
    TryTouchesOne(s, e);
  }

  lemma TryTouchesOne(s: Rewinding, e: Event)
    ensures Step(s, e).items.Keys == s.items.Keys
    ensures e.Tried? ==> forall id | id in s.items && id != e.id :: Step(s, e).items[id] == s.items[id]
  {
    hide Obstacle, Applied;
  }

  /** What is left when nothing can move is a knot. */
  lemma LeftoverIsKnot(w: Workspace, candidates: set<FileId>, time: Time, s: Rewinding)
    requires LogReal(w) && Standing(w, candidates, time, s) && Stuck(s) && !AllDone(s.items)
    requires AllAttainable(w, s.items) && OnlyMoves(s.items) && DistinctTargets(w, s.items)
    ensures exists S :: Knot(w, s.items, S)
  {
    var S := set f | f in w.t.files && Moves(s.items, f) && (f, KRestorePath) in Undone(s.items);
    hide LogReal, Faithful, SourcesKept, Standing, SamePath, Blocked, Attainable;
    forall id | id in Undone(s.items) ensures id.0 in s.t.files && id.0 in S && id.1 == KRestorePath && MetadataConflict(s.t.files, id.0, s.items[id].action) {
      BlockedByPath(w, candidates, time, s, id);
      MoveLeft(w, candidates, time, s, id);
    }
    forall f | f in S ensures Held(w, s.items, S, f) {
      LeftoverIsHeld(w, candidates, time, s, S, f);
    }
    var id :| id in s.items && s.items[id].status != ItemDone;
    assert id in Undone(s.items);
    assert Knot(w, s.items, S);
  }

  lemma MoveLeft(w: Workspace, candidates: set<FileId>, time: Time, s: Rewinding, id: ItemId)
    requires Standing(w, candidates, time, s) && id in s.items && OnlyMoves(s.items) && id.0 in s.t.files
    requires MetadataConflict(s.t.files, id.0, s.items[id].action)
    ensures id.1 == KRestorePath && Moves(s.items, id.0)
  {
    PlannedIsFile(w, candidates, time, s.items, id);
    hide Faithful, SourcesKept, PathTaken;
  }

  lemma LeftoverIsHeld(w: Workspace, candidates: set<FileId>, time: Time, s: Rewinding, S: set<FileId>, f: FileId)
    requires Standing(w, candidates, time, s) && OnlyMoves(s.items) && DistinctTargets(w, s.items)
    requires S == set f | f in w.t.files && Moves(s.items, f) && (f, KRestorePath) in Undone(s.items)
    requires f in S && f in s.t.files && MetadataConflict(s.t.files, f, s.items[(f, KRestorePath)].action)
    ensures Held(w, s.items, S, f)
  {
    hide Faithful, SourcesKept, SamePath, Undone;
    var g := Taker(s.t.files, f, MovesTo(s.items, f));
    assert g in w.t.files by { SameFiles(w, candidates, time, s); }
    RowOf(w, candidates, time, s, f);
    RowOf(w, candidates, time, s, g);
    if Moves(s.items, g) {
      MoveIsLeft(s.items, g);
    }
    assert Holds(w, s.items, S, f, g);
  }

  lemma SameFiles(w: Workspace, candidates: set<FileId>, time: Time, s: Rewinding)
    requires Faithful(w, candidates, time, s)
    ensures s.t.files.Keys == w.t.files.Keys
  {
    hide ItemsPlanned, Implied, Consistent, Grows;
  }

  lemma Taker(files: map<FileId, FileRow>, f: FileId, path: string) returns (g: FileId)
    requires f in files && PathTaken(files, f, files[f].workspace, path)
    ensures g in files && g != f && Occupies(files[g], files[f].workspace, path)
  {
    hide Occupies;
    g :| g in files.Keys && g != f && Occupies(files[g], files[f].workspace, path);
  }

  lemma MoveIsLeft(items: map<ItemId, Item>, g: FileId)
    requires Moves(items, g)
    ensures IsDone(items, (g, KRestorePath)) || (g, KRestorePath) in Undone(items)
  {
  }

  lemma DoneBlocksNoKnot(s: Rewinding, f: FileId)
    requires (f, KRestorePath) in Undone(s.items)
    ensures !AllDone(s.items)
  {
  }

  /** For a plan of moves (and versions, and no-ops) onto distinct paths, retrying under clear
      conditions completes it if and only if every item is attainable and there is no knot: no set of
      moves each of whose past paths is held by an active file that stays or by one of the set. */
  lemma MovesCompleteExactly(w: Workspace, candidates: set<FileId>, time: Time, s: Rewinding, passes: seq<Pass>)
    requires LogReal(w) && Prepared(w, candidates, time, s) && OnlyMoves(s.items) && DistinctTargets(w, s.items)
    requires FullPasses(s, passes) && |passes| >= |Undone(s.items)|
    ensures AllDone(AfterPasses(s, passes).items) <==> AllAttainable(w, s.items) && !exists S :: Knot(w, s.items, S)
  {
    hide LogReal, Prepared, FullPass, Stuck, Standing, Knot, DistinctTargets, OnlyMoves, AllAttainable, AfterPasses, WellFormed, AllDone;
    var s' := AfterPasses(s, passes);
    PreparedStands(w, candidates, time, s);
    PassesStand(w, candidates, time, s, passes);
    RetryingEnds(s, passes);
    SameActions(w, s, s');
    if AllAttainable(w, s.items) && (!exists S :: Knot(w, s.items, S)) && !AllDone(s'.items) {
      LeftoverIsKnot(w, candidates, time, s');
      var S :| Knot(w, s'.items, S);
      KnotOfActions(w, s'.items, s.items, S);
      assert false;
    }
    if exists S :: Knot(w, s.items, S) {
      var S :| Knot(w, s.items, S);
      KnotStopsPasses(w, candidates, time, s, S, passes);
    }
    if !AllAttainable(w, s.items) { UnattainableStops(w, candidates, time, s, passes); }
  }

  lemma SameActions(w: Workspace, s: Rewinding, s': Rewinding)
    requires Onward(s, s')
    ensures s'.items.Keys == s.items.Keys && forall id | id in s.items :: s'.items[id].action == s.items[id].action
    ensures OnlyMoves(s.items) == OnlyMoves(s'.items) && DistinctTargets(w, s.items) == DistinctTargets(w, s'.items)
    ensures AllAttainable(w, s.items) == AllAttainable(w, s'.items)
  {
    hide Attainable, SamePath;
  }

  /** Passes are runs. */
  lemma {:induction false} PassesAreEvents(s: Rewinding, passes: seq<Pass>) returns (events: seq<Event>)
    requires forall p | p in passes :: WellFormed(p)
    ensures AfterPasses(s, passes) == After(s, events)
  {
    hide Step, WellFormed;
    if passes == [] { return []; }
    var n := |passes| - 1;
    assert passes[n] in passes;
    var before := PassesAreEvents(s, passes[..n]);
    events := PassIsEvents(s, before, passes[n]);
  }

  lemma PassIsEvents(s: Rewinding, before: seq<Event>, p: Pass) returns (events: seq<Event>)
    requires WellFormed(p)
    ensures PassResult(After(s, before), p) == After(s, events)
  {
    hide Step;
    events := before;
    if p.retry {
      AfterOneMore(s, events, ResetFailed);
      events := events + [ResetFailed];
    }
    AfterAppend(s, events, Tries(p.order, p.tries, p.stop));
    events := events + Tries(p.order, p.tries, p.stop);
    if p.stop < |p.order| && p.marked {
      AfterOneMore(s, events, Begun(p.order[p.stop]));
      events := events + [Begun(p.order[p.stop])];
    }
  }

  lemma {:induction false} AfterAppend(s: Rewinding, a: seq<Event>, b: seq<Event>)
    ensures After(s, a + b) == After(After(s, a), b)
  {
    hide Step;
    if b == [] {
      assert a + b == a;
    } else {
      assert (a + b)[..|a + b| - 1] == a + b[..|b| - 1];
      AfterAppend(s, a, b[..|b| - 1]);
    }
  }

  lemma KnotStopsPasses(w: Workspace, candidates: set<FileId>, time: Time, s: Rewinding, S: set<FileId>, passes: seq<Pass>)
    requires LogReal(w) && Prepared(w, candidates, time, s) && Knot(w, s.items, S) && forall p | p in passes :: WellFormed(p)
    ensures !AllDone(AfterPasses(s, passes).items)
  {
    hide LogReal, Prepared, Held, WellFormed, AllDone;
    var events := PassesAreEvents(s, passes);
    KnotNeverUndone(w, candidates, time, s, S, events);
    var f :| f in S;
    DoneBlocksNoKnot(After(s, events), f);
  }

  // ---------------------------------------------------------------- what is never attainable

  lemma {:induction false} UnattainableNeverDone(w: Workspace, candidates: set<FileId>, time: Time, s: Rewinding, id: ItemId, events: seq<Event>)
    requires LogReal(w) && Standing(w, candidates, time, s) && id in Undone(s.items) && !Attainable(w.t, id.0, s.items[id].action)
    ensures id in Undone(After(s, events).items)
  {
    hide LogReal, Standing, Step, Blocked, Attainable, Undone;
    if events != [] {
      var before := After(s, events[..|events| - 1]);
      UnattainableNeverDone(w, candidates, time, s, id, events[..|events| - 1]);
      EventsStand(w, candidates, time, s, events[..|events| - 1]);
      AfterOnward(s, events[..|events| - 1]);
      InUndone(s.items, id);
      InUndone(before.items, id);
      BlockedByPath(w, candidates, time, before, id);
      BlockedStays(before, events[|events| - 1], id);
    }
  }

  lemma InUndone(items: map<ItemId, Item>, id: ItemId)
    requires id in Undone(items)
    ensures id in items
  {
  }

  lemma UnattainableStops(w: Workspace, candidates: set<FileId>, time: Time, s: Rewinding, passes: seq<Pass>)
    requires LogReal(w) && Prepared(w, candidates, time, s) && !AllAttainable(w, s.items) && forall p | p in passes :: WellFormed(p)
    ensures !AllDone(AfterPasses(s, passes).items)
  {
    var id :| id in s.items && !Attainable(w.t, id.0, s.items[id].action);
    assert id in Undone(s.items) by { hide ItemsPlanned; }
    hide LogReal, Prepared, Attainable, WellFormed, Standing;
    PreparedStands(w, candidates, time, s);
    var events := PassesAreEvents(s, passes);
    UnattainableNeverDone(w, candidates, time, s, id, events);
  }

  // ---------------------------------------------------------------- plans of every kind

  function DoneExcept(items: map<ItemId, Item>, S: set<ItemId>): map<ItemId, Item> {
    map id | id in items :: items[id].(status := if id in S then ItemPending else ItemDone)
  }

  /** The file rows once everything but S is done. */
  function FilesExcept(w: Workspace, items: map<ItemId, Item>, S: set<ItemId>): map<FileId, FileRow> {
    map f | f in w.t.files :: Implied(w, DoneExcept(items, S), f)
  }

  /** Items that would all find their path taken if they were the only ones left. */
  predicate Wedge(w: Workspace, items: map<ItemId, Item>, S: set<ItemId>) {
    && S != {} && S <= items.Keys
    && forall id | id in S :: id.0 in w.t.files && MetadataConflict(FilesExcept(w, items, S), id.0, items[id].action)
  }

  lemma FilesAre(w: Workspace, candidates: set<FileId>, time: Time, s: Rewinding)
    requires Faithful(w, candidates, time, s)
    ensures s.t.files == FilesExcept(w, s.items, Undone(s.items))
  {
    hide Consistent, Grows, ItemsPlanned, Implied;
    var items' := DoneExcept(s.items, Undone(s.items));
    forall f | f in w.t.files ensures s.t.files[f] == Implied(w, items', f) {
      ImpliedSame(w, s.items, items', f);
    }
  }

  lemma ExceptOfActions(w: Workspace, items: map<ItemId, Item>, items': map<ItemId, Item>, S: set<ItemId>)
    requires items'.Keys == items.Keys && (forall id | id in items :: items'[id].action == items[id].action)
    ensures FilesExcept(w, items', S) == FilesExcept(w, items, S)
    ensures Wedge(w, items', S) == Wedge(w, items, S)
  {
    hide Implied, MetadataConflict;
    forall f | f in w.t.files ensures Implied(w, DoneExcept(items', S), f) == Implied(w, DoneExcept(items, S), f) {
      ImpliedSame(w, DoneExcept(items, S), DoneExcept(items', S), f);
    }
  }

  /** Any plan whatever: if nothing can wedge, retrying under clear conditions completes it. */
  lemma NoWedgeCompletes(w: Workspace, candidates: set<FileId>, time: Time, s: Rewinding, passes: seq<Pass>)
    requires LogReal(w) && Prepared(w, candidates, time, s) && AllAttainable(w, s.items)
    requires !exists S :: Wedge(w, s.items, S)
    requires FullPasses(s, passes) && |passes| >= |Undone(s.items)|
    ensures AllDone(AfterPasses(s, passes).items)
  {
    hide LogReal, Prepared, FullPass, Stuck, Standing, Wedge, AllAttainable, AfterPasses, WellFormed, AllDone;
    var s' := AfterPasses(s, passes);
    PreparedStands(w, candidates, time, s);
    PassesStand(w, candidates, time, s, passes);
    RetryingEnds(s, passes);
    SameActions(w, s, s');
    if !AllDone(s'.items) {
      StuckIsWedge(w, candidates, time, s');
      ExceptOfActions(w, s.items, s'.items, Undone(s'.items));
      assert false;
    }
  }

  lemma StuckIsWedge(w: Workspace, candidates: set<FileId>, time: Time, s: Rewinding)
    requires LogReal(w) && Standing(w, candidates, time, s) && Stuck(s) && !AllDone(s.items) && AllAttainable(w, s.items)
    ensures Wedge(w, s.items, Undone(s.items))
  {
    hide LogReal, Faithful, SourcesKept, Blocked, Attainable, MetadataConflict;
    FilesAre(w, candidates, time, s);
    forall id | id in Undone(s.items)
      ensures id.0 in w.t.files && id.0 in s.t.files && MetadataConflict(s.t.files, id.0, s.items[id].action)
    {
      BlockedByPath(w, candidates, time, s, id);
    }
    var id :| id in s.items && s.items[id].status != ItemDone;
    assert id in Undone(s.items);
  }

  // ---------------------------------------------------------------- inputs

  /** Files that never had content, and their snapshots. */
  function Small(files: map<FileId, FileRow>, history: seq<Snapshot>): Workspace {
    Workspace(Tables(files, map[], map[]), map f | f in files :: 0, history)
  }

  function Named(path: string, status: FileStatus): FileRow {
    FileRow(0, path, path, status, 0, None)
  }

  function Was(f: FileId, path: string): Snapshot {
    Snapshot(f, path, path, Active, 0, 1)
  }

  lemma SmallIsReal(files: map<FileId, FileRow>, history: seq<Snapshot>)
    requires forall f | f in files :: files[f].currentVersion == 0 && files[f].currentHash == None
    requires forall x | x in history :: x.fileId in files && x.contentVersion == 0
    ensures LogReal(Small(files, history))
  {
  }

  lemma OnlySnapshot(history: seq<Snapshot>, f: FileId, time: Time, i: nat)
    requires i < |history| && history[i].fileId == f && history[i].createdAt <= time
    requires forall j | 0 <= j < |history| && j != i :: history[j].fileId != f
    ensures LastAt(history, f, time) == Some(history[i])
  {
    LastAtIsTheLatest(history, f, time);
    hide LastAt;
    assert Seen(history, f, time, i);
  }

  function Pending(a: Action): Item {
    Item(a, ItemPending, 0)
  }

  // Three files, each where the next one was.
  const RotatedFiles := map[1 := Named("a", Active), 2 := Named("b", Active), 3 := Named("c", Active)]
  const RotatedLog := [Was(1, "b"), Was(2, "c"), Was(3, "a")]
  const RotatedItems := map[(1, KRestorePath) := Pending(RestorePath("b", "b")), (2, KRestorePath) := Pending(RestorePath("c", "c")),
                            (3, KRestorePath) := Pending(RestorePath("a", "a"))]

  function Rotated(): Workspace {
    Small(RotatedFiles, RotatedLog)
  }

  function RotatedPlan(): Rewinding {
    Rewinding(Rotated().t, RotatedLog, RotatedItems)
  }

  lemma RotationIsPrepared()
    ensures LogReal(Rotated()) && Prepared(Rotated(), {1, 2, 3}, 1, RotatedPlan())
  {
    hide LastAt, LogReal, Wanted;
    SmallIsReal(RotatedFiles, RotatedLog);
    RotatedWants();
  }

  lemma RotatedWants()
    ensures forall a :: Wanted(Rotated(), 1, 1, a) <==> a == RestorePath("b", "b")
    ensures forall a :: Wanted(Rotated(), 1, 2, a) <==> a == RestorePath("c", "c")
    ensures forall a :: Wanted(Rotated(), 1, 3, a) <==> a == RestorePath("a", "a")
  {
    hide LastAt, Wanted;
    var w := Rotated();
    OnlySnapshot(RotatedLog, 1, 1, 0);
    OnlySnapshot(RotatedLog, 2, 1, 1);
    OnlySnapshot(RotatedLog, 3, 1, 2);
    WantsMove(w, 1, RotatedLog[0]);
    WantsMove(w, 2, RotatedLog[1]);
    WantsMove(w, 3, RotatedLog[2]);
  }

  /** What is planned for a file that moved, and maybe changed its status, since its snapshot. */
  lemma WantsMove(w: Workspace, f: FileId, past: Snapshot)
    requires f in w.t.files && LastAt(w.history, f, 1) == Some(past) && past.contentVersion == 0
    requires past.relativePath != w.t.files[f].relativePath
    ensures forall a :: Wanted(w, 1, f, a) <==>
      a == RestorePath(past.logicalName, past.relativePath) || (past.status != w.t.files[f].status && a == RestoreStatus(past.status))
  {
    hide LastAt;
  }

  lemma RotationIsKnot()
    ensures Knot(Rotated(), RotatedItems, {1, 2, 3})
  {
    var w, S := Rotated(), {1, 2, 3};
    assert Holds(w, RotatedItems, S, 1, 2) && Holds(w, RotatedItems, S, 2, 3) && Holds(w, RotatedItems, S, 3, 1);
  }

  /** Rewinding past a rotation of three files never moves any of them. */
  lemma RotationNeverCompletes(events: seq<Event>)
    ensures (1, KRestorePath) in Undone(After(RotatedPlan(), events).items)
    ensures !AllDone(After(RotatedPlan(), events).items)
  {
    hide Knot, LogReal, Prepared, Undone, AllDone;
    RotationIsPrepared();
    RotationIsKnot();
    KnotNeverUndone(Rotated(), {1, 2, 3}, 1, RotatedPlan(), {1, 2, 3}, events);
    DoneBlocksNoKnot(After(RotatedPlan(), events), 1);
  }

  /** Two active files that changed places since `time`: each path is taken by the other. */
  ghost predicate Swapped(w: Workspace, time: Time, f: FileId, g: FileId) {
    && f in w.t.files && g in w.t.files && f != g
    && w.t.files[f].workspace == w.t.files[g].workspace
    && w.t.files[f].status == Active && w.t.files[g].status == Active
    && LastAt(w.history, f, time).Some? && LastAt(w.history, g, time).Some?
    && var (p, q) := (LastAt(w.history, f, time).value, LastAt(w.history, g, time).value);
       && p.status == Active && q.status == Active
       && SamePath(p.relativePath, w.t.files[g].relativePath)
       && SamePath(q.relativePath, w.t.files[f].relativePath)
       && p.relativePath != w.t.files[f].relativePath && q.relativePath != w.t.files[g].relativePath
  }

  /** Rewinding past a swap of two paths never completes, however often it is retried. */
  lemma SwapNeverCompletes(w: Workspace, candidates: set<FileId>, time: Time, s: Rewinding, f: FileId, g: FileId, events: seq<Event>)
    requires LogReal(w) && Prepared(w, candidates, time, s) && Swapped(w, time, f, g) && f in candidates && g in candidates
    ensures var items := After(s, events).items;
      (f, KRestorePath) in Undone(items) && (g, KRestorePath) in Undone(items)
  {
    SwapIsKnot(w, candidates, time, s.items, f, g);
    hide LogReal, Prepared, Swapped, Knot, Undone;
    KnotNeverUndone(w, candidates, time, s, {f, g}, events);
  }

  lemma SwapIsKnot(w: Workspace, candidates: set<FileId>, time: Time, items: map<ItemId, Item>, f: FileId, g: FileId)
    requires ItemsPlanned(w, candidates, time, items) && Swapped(w, time, f, g) && f in candidates && g in candidates
    ensures Knot(w, items, {f, g})
  {
    SwapMoves(w, candidates, time, items, f, g);
    SwapMoves(w, candidates, time, items, g, f);
    hide ItemsPlanned, Swapped, Occupies;
    assert Holds(w, items, {f, g}, f, g) && Holds(w, items, {f, g}, g, f);
  }

  lemma SwapMoves(w: Workspace, candidates: set<FileId>, time: Time, items: map<ItemId, Item>, f: FileId, g: FileId)
    requires ItemsPlanned(w, candidates, time, items) && Swapped(w, time, f, g) && f in candidates
    ensures f in w.t.files && g in w.t.files && f != g && Moves(items, f) && KeepsStatus(items, f)
    ensures Occupies(w.t.files[g], w.t.files[f].workspace, MovesTo(items, f))
  {
    hide LastAt, NoCase;
    var p := LastAt(w.history, f, time).value;
    assert Wanted(w, time, f, RestorePath(p.logicalName, p.relativePath));
  }

  /** A try that nothing outside the tables hinders. */
  const Free := Try(false, true, 0, 5)

  // A file that had no content when its snapshot was taken, and has some now.
  const FilledTables := Tables(map[1 := FileRow(0, "a", "a", Active, 1, Some(5))], map[(1, 1) := VersionRow(0, 5, 0, None, Current)], map[])
  const FilledLog := [Was(1, "a")]
  const FilledItems := map[(1, KNoOp) := Pending(NoOp)]

  function Filled(): Workspace {
    Workspace(FilledTables, map[1 := 0], FilledLog)
  }

  function FilledPlan(): Rewinding {
    Rewinding(FilledTables, FilledLog, FilledItems)
  }

  lemma FilledIsPrepared()
    ensures Prepared(Filled(), {1}, 1, FilledPlan()) && LastAt(FilledLog, 1, 1) == Some(Was(1, "a"))
    ensures LogReal(Filled())
  {
    FilledIsConsistent();
    OnlySnapshot(FilledLog, 1, 1, 0);
    hide LastAt, Consistent;
    assert forall a :: Wanted(Filled(), 1, 1, a) <==> a == NoOp;
    hide Wanted;
  }

  lemma FilledIsConsistent()
    ensures Consistent(FilledTables)
  {
    hide Consistent, LogReal, FreshVersionId;
    var empty := Small(map[1 := Named("a", Active)], []);
    SmallIsReal(empty.t.files, []);
    LogIsConsistent(empty);
    FilledByBatch();
    RewindKeeps(empty.t, FirstVersion);
  }

  const FirstVersion := Advance(0, 1, 0, 0, 5, None, -1)

  lemma FilledByBatch()
    ensures var t := Tables(map[1 := Named("a", Active)], map[], map[]);
      FreshVersionId(t.versions, 0) && RewindBatch(t, FirstVersion) == FilledTables
  {
    var t := Tables(map[1 := Named("a", Active)], map[], map[]);
    assert RewindBatch(t, FirstVersion).versions == FilledTables.versions;
    assert RewindBatch(t, FirstVersion).files == FilledTables.files;
  }

  /** Rewinding that file to the snapshot completes at once and leaves the later content in place. */
  lemma ContentStays()
    ensures Prepared(Filled(), {1}, 1, FilledPlan())
    ensures var s' := After(FilledPlan(), [Tried((1, KNoOp), Free)]);
      && AllDone(s'.items) && LastAt(FilledLog, 1, 1) == Some(Was(1, "a")) && HashThen(Filled(), Was(1, "a")) == None
      && 1 in s'.t.files && s'.t.files[1].currentHash == Some(5)
    ensures LogReal(Filled())
  {
    hide LastAt, LogReal, Prepared;
    FilledIsPrepared();
    AfterOneMore(FilledPlan(), [], Tried((1, KNoOp), Free));
    assert [] + [Tried((1, KNoOp), Free)] == [Tried((1, KNoOp), Free)];
    assert After(FilledPlan(), []) == FilledPlan();
  }

  // A file created at 10 and deleted since, next to an old one that never changed.
  const GoneFiles := map[1 := Named("a", Active), 2 := Named("b", Deleted)]

  function Gone(): Workspace {
    Workspace(Tables(GoneFiles, map[], map[]), map[1 := 0, 2 := 10], [Was(1, "a")])
  }

  /** To a time before both its creation and its deletion the whole workspace cannot be rewound,
      although nothing would have to be done. */
  lemma DeletedFileIsUnsupported()
    ensures CreatedAfter(Gone(), 2, 5) && Unsupported(Gone(), 2, 5) && !Unsupported(Gone(), 1, 5)
    ensures forall a :: Wanted(Gone(), 5, 1, a) <==> a == NoOp
    ensures LogReal(Gone())
  {
    hide LastAt, LogReal, Wanted, Unsupported;
    GoneIsReal();
    GoneHasNoPast();
    StayerWantsNothing();
  }

  lemma GoneHasNoPast()
    ensures Unsupported(Gone(), 2, 5)
  {
    hide LastAt;
    NoSnapshot([Was(1, "a")], 2, 5);
  }

  lemma StayerWantsNothing()
    ensures !Unsupported(Gone(), 1, 5)
    ensures forall a :: Wanted(Gone(), 5, 1, a) <==> a == NoOp
  {
    hide LastAt;
    OnlySnapshot([Was(1, "a")], 1, 5, 0);
  }

  lemma NoSnapshot(history: seq<Snapshot>, f: FileId, time: Time)
    requires forall i | 0 <= i < |history| :: history[i].fileId != f
    ensures LastAt(history, f, time) == None
  {
    LastAtIsTheLatest(history, f, time);
    hide LastAt;
  }

  lemma GoneIsReal()
    ensures LogReal(Gone())
  {
    SmallIsReal(GoneFiles, [Was(1, "a")]);
    hide Consistent;
  }
}
