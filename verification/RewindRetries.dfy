/** Passes over a rewind operation's items: how often one can end PARTIAL, when none can make
    progress any more, and that retrying always ends in one of the two. */
module RewindRetries {
  import opened Wrappers
  import opened CloudTables
  import opened RewindPlan
  import opened RewindRuns

  datatype OperationStatus = NotStarted | Running | Completed | Partial | Failed

  const PASS_LIMIT := 5000

  function Undone(items: map<ItemId, Item>): set<ItemId> {
    set id | id in items && items[id].status != ItemDone
  }

  /** The place of an action's name in the alphabet. */
  function Rank(kind: Kind): nat {
    match kind
    case KNoOp => 0
    case KRestorePath => 1
    case KRestoreStatus => 2
    case KRestoreVersion => 3
    case KTrashNew => 4
  }

  /** The items of an operation were created at one moment, so only their actions order them. */
  predicate InActionOrder(items: map<ItemId, Item>, order: seq<ItemId>) {
    && (forall i, j | 0 <= i < j < |order| :: Rank(order[i].1) <= Rank(order[j].1))
    && (forall i, id | 0 <= i < |order| && id in Undone(items) && id !in order :: Rank(order[i].1) <= Rank(id.1))
  }

  /** The rows a pass selects: not DONE, by action and within one action in any order, no more than
      the query's limit. */
  predicate Selected(items: map<ItemId, Item>, order: seq<ItemId>) {
    && (forall i | 0 <= i < |order| :: order[i] in Undone(items))
    && (forall i, j | 0 <= i < j < |order| :: order[i] != order[j])
    && |order| == (if |Undone(items)| < PASS_LIMIT then |Undone(items)| else PASS_LIMIT)
    && InActionOrder(items, order)
  }

  /** One call of executeRewindOperation, or of the retry that resets failed items first. It crashes
      at item `stop`, having marked it RUNNING or not, unless it gets to the end. */
  datatype Pass = Pass(retry: bool, order: seq<ItemId>, tries: seq<Try>, stop: nat, marked: bool)

  predicate WellFormed(p: Pass) {
    |p.tries| == |p.order| && p.stop <= |p.order|
  }

  function Tries(order: seq<ItemId>, tries: seq<Try>, n: nat): seq<Event>
    requires n <= |order| == |tries|
  {
    seq(n, k requires 0 <= k < n => Tried(order[k], tries[k]))
  }

  function Opened(s: Rewinding, p: Pass): Rewinding {
    if p.retry then Step(s, ResetFailed) else s
  }

  function PassResult(s: Rewinding, p: Pass): Rewinding
    requires WellFormed(p)
  {
    var swept := After(Opened(s, p), Tries(p.order, p.tries, p.stop));
    if p.stop < |p.order| && p.marked then Step(swept, Begun(p.order[p.stop])) else swept
  }

  /** The status a pass from `items` to `items'` writes at its end. */
  function EndStatus(items: map<ItemId, Item>, items': map<ItemId, Item>): OperationStatus {
    if Undone(items') == {} then Completed else if |Undone(items')| < |Undone(items)| then Partial else Failed
  }

  /** None: it crashed before writing a status. */
  function PassStatus(s: Rewinding, p: Pass): Option<OperationStatus>
    requires WellFormed(p)
  {
    if p.stop < |p.order| then None else Some(EndStatus(s.items, PassResult(s, p).items))
  }

  /** Resetting first and passing afterwards is the retry. */
  lemma RetryIsPass(s: Rewinding, p: Pass)
    requires WellFormed(p) && p.retry
    ensures var q := p.(retry := false);
      PassResult(s, p) == PassResult(Step(s, ResetFailed), q) && PassStatus(s, p) == PassStatus(Step(s, ResetFailed), q)
  {
    hide After, Tries;
    OpenedSame(s, p);
    hide Step, Stuck, Onward;
  }

  // ---------------------------------------------------------------- a step at a time

  lemma StepUndone(s: Rewinding, e: Event)
    ensures Step(s, e).items.Keys == s.items.Keys && Undone(Step(s, e).items) <= Undone(s.items)
    ensures Undone(Step(s, e).items) != Undone(s.items) ==>
      e.Tried? && e.id in Undone(s.items) && Undone(Step(s, e).items) == Undone(s.items) - {e.id}
    ensures Undone(Step(s, e).items) == Undone(s.items) ==> Step(s, e).t == s.t && Step(s, e).history == s.history
    ensures forall id | id in s.items :: Step(s, e).items[id].action == s.items[id].action
  {
    hide Obstacle, Applied;
    if e.Tried? && e.id in s.items && !IsDone(s.items, e.id) && IsDone(Step(s, e).items, e.id) {
      assert e.id in Undone(s.items) && e.id !in Undone(Step(s, e).items);
    }
  }

  /** `s'` is `s` with some more items done; nothing else moved the tables. */
  predicate Onward(s: Rewinding, s': Rewinding) {
    && s'.items.Keys == s.items.Keys && Undone(s'.items) <= Undone(s.items)
    && (forall id | id in s.items :: s'.items[id].action == s.items[id].action)
    && (Undone(s'.items) == Undone(s.items) ==> s'.t == s.t && s'.history == s.history)
  }

  lemma StepOnward(s: Rewinding, e: Event)
    ensures Onward(s, Step(s, e))
  {
    StepUndone(s, e);
    hide Step;
  }

  lemma OnwardTrans(a: Rewinding, b: Rewinding, c: Rewinding)
    requires Onward(a, b) && Onward(b, c)
    ensures Onward(a, c)
  {
  }

  lemma {:induction false} AfterOnward(s: Rewinding, events: seq<Event>)
    ensures Onward(s, After(s, events))
  {
    hide Step, Onward;
    if events == [] {
      assert Onward(s, s) by { SelfOnward(s); }
    } else {
      var before := After(s, events[..|events| - 1]);
      AfterOnward(s, events[..|events| - 1]);
      StepOnward(before, events[|events| - 1]);
      OnwardTrans(s, before, After(s, events));
    }
  }

  lemma SelfOnward(s: Rewinding)
    ensures Onward(s, s)
  {
  }

  lemma PassOnward(s: Rewinding, p: Pass)
    requires WellFormed(p)
    ensures Onward(s, PassResult(s, p))
  {
    hide Step, Onward, After;
    SelfOnward(s);
    StepOnward(s, ResetFailed);
    var swept := After(Opened(s, p), Tries(p.order, p.tries, p.stop));
    AfterOnward(Opened(s, p), Tries(p.order, p.tries, p.stop));
    OnwardTrans(s, Opened(s, p), swept);
    if p.stop < |p.order| && p.marked {
      StepOnward(swept, Begun(p.order[p.stop]));
      OnwardTrans(s, swept, PassResult(s, p));
    }
  }

  // ---------------------------------------------------------------- PARTIAL is bounded

  function AfterPasses(s: Rewinding, passes: seq<Pass>): Rewinding
    requires forall p | p in passes :: WellFormed(p)
  {
    if passes == [] then s else PassResult(AfterPasses(s, passes[..|passes| - 1]), passes[|passes| - 1])
  }

  function PartialPasses(s: Rewinding, passes: seq<Pass>): nat
    requires forall p | p in passes :: WellFormed(p)
  {
    if passes == [] then 0
    else
      PartialPasses(s, passes[..|passes| - 1])
        + if PassStatus(AfterPasses(s, passes[..|passes| - 1]), passes[|passes| - 1]) == Some(Partial) then 1 else 0
  }

  /** Each PARTIAL pass finished an item and left one: fewer passes than items can end so. */
  lemma {:induction false} PartialIsBounded(s: Rewinding, passes: seq<Pass>)
    requires forall p | p in passes :: WellFormed(p)
    ensures PartialPasses(s, passes) + |Undone(AfterPasses(s, passes).items)| <= |Undone(s.items)|
    ensures PartialPasses(s, passes) > 0 ==> PartialPasses(s, passes) < |Undone(s.items)|
  {
    hide PassResult, WellFormed;
    if passes != [] {
      var n := |passes| - 1;
      PartialIsBounded(s, passes[..n]);
      PassOnward(AfterPasses(s, passes[..n]), passes[n]);
      SmallerSet(Undone(AfterPasses(s, passes).items), Undone(AfterPasses(s, passes[..n]).items));
      if Undone(AfterPasses(s, passes).items) != {} { SmallerSet({}, Undone(AfterPasses(s, passes).items)); }
    }
  }

  // ---------------------------------------------------------------- stuck or finished

  /** What no lease, clock or storage outage explains: this item cannot be done as the tables stand. */
  predicate Blocked(t: Tables, f: FileId, a: Action) {
    && !a.NoOp?
    && (UploadOpen(t.intents, f) || f !in t.files
        || (if a.RestoreVersion?
            then (f, a.version) !in t.versions || t.versions[(f, a.version)].status == Expired
                 || (f, t.files[f].currentVersion + 1) in t.versions
            else MetadataConflict(t.files, f, a)))
  }

  /** Nobody else holds the lease, storage works, the id is fresh. */
  predicate Clear(t: Tables, x: Try) {
    !x.locked && x.stored && !VersionIdTaken(t.versions, x.versionId)
  }

  lemma ClearTrySucceeds(s: Rewinding, id: ItemId, x: Try)
    requires id in s.items && Clear(s.t, x)
    ensures IsDone(TryItem(s, id, x).items, id) <==> !Blocked(s.t, id.0, s.items[id].action)
  {
    hide UploadOpen, MetadataConflict, VersionIdTaken, Applied;
  }

  predicate Stuck(s: Rewinding) {
    forall id | id in Undone(s.items) :: Blocked(s.t, id.0, s.items[id].action)
  }

  lemma BlockedTryFails(s: Rewinding, id: ItemId, x: Try)
    requires id in s.items && s.items[id].status != ItemDone && Blocked(s.t, id.0, s.items[id].action)
    ensures !IsDone(TryItem(s, id, x).items, id)
  {
    hide UploadOpen, MetadataConflict, VersionIdTaken, Applied;
  }

  /** Whatever is tried once every remaining item is blocked, nothing changes any more. */
  lemma {:induction false} StuckForever(s: Rewinding, events: seq<Event>)
    requires Stuck(s)
    ensures var s' := After(s, events); Stuck(s') && s'.t == s.t && Undone(s'.items) == Undone(s.items)
  {
    hide Step, Blocked;
    if events != [] {
      var before := After(s, events[..|events| - 1]);
      var e := events[|events| - 1];
      StuckForever(s, events[..|events| - 1]);
      StuckStep(before, e);
    }
  }

  lemma StuckStep(s: Rewinding, e: Event)
    requires Stuck(s)
    ensures Stuck(Step(s, e)) && Step(s, e).t == s.t && Undone(Step(s, e).items) == Undone(s.items)
  {
    StepUndone(s, e);
    hide TryItem, Blocked;
    if Undone(Step(s, e).items) != Undone(s.items) {
      BlockedTryFails(s, e.id, e.x);
      assert false;
    }
  }

  /** A pass that reaches its end under clear conditions, with its selection not cut by the limit. */
  predicate FullPass(s: Rewinding, p: Pass) {
    && WellFormed(p) && Selected(Opened(s, p).items, p.order) && p.stop == |p.order|
    && |Undone(s.items)| <= 5000
    && forall k | 0 <= k < |p.tries| :: Clear(s.t, p.tries[k])
  }

  /** Such a pass finishes something exactly when something is not blocked. */
  lemma FullPassProgress(s: Rewinding, p: Pass)
    requires FullPass(s, p)
    ensures Undone(PassResult(s, p).items) == Undone(s.items) <==> Stuck(s)
  {
    var o := Opened(s, p);
    OpenedSame(s, p);
    if Stuck(s) {
      StuckForever(o, Tries(p.order, p.tries, p.stop));
    } else if Undone(PassResult(s, p).items) == Undone(s.items) {
      var id :| id in Undone(s.items) && !Blocked(s.t, id.0, s.items[id].action);
      AllSelected(Undone(o.items), p.order);
      var k :| 0 <= k < |p.order| && p.order[k] == id;
      TriedInVain(o, p.order, p.tries, k);
      assert false;
    }
  }

  lemma OpenedSame(s: Rewinding, p: Pass)
    ensures var o := Opened(s, p); o.t == s.t && Undone(o.items) == Undone(s.items) && (Stuck(s) <==> Stuck(o))
    ensures Onward(s, Opened(s, p))
  {
    StepUndone(s, ResetFailed);
    SelfOnward(s);
    hide Blocked;
  }

  lemma AllSelected(undone: set<ItemId>, order: seq<ItemId>)
    requires (forall i | 0 <= i < |order| :: order[i] in undone) && (forall i, j | 0 <= i < j < |order| :: order[i] != order[j])
    requires |order| == |undone|
    ensures forall id | id in undone :: id in order
  {
    var listed := set i | 0 <= i < |order| :: order[i];
    DistinctCount(order, listed);
    SmallerSet(listed, undone);
  }

  lemma {:induction false} DistinctCount(order: seq<ItemId>, listed: set<ItemId>)
    requires forall i, j | 0 <= i < j < |order| :: order[i] != order[j]
    requires listed == set i | 0 <= i < |order| :: order[i]
    ensures |listed| == |order|
  {
    if order != [] {
      var n := |order| - 1;
      var shorter := set i | 0 <= i < n :: order[..n][i];
      DistinctCount(order[..n], shorter);
      assert listed == shorter + {order[n]};
    }
  }

  /** If item k is unblocked and a pass leaves everything undone, the pass contradicts itself. */
  lemma TriedInVain(s: Rewinding, order: seq<ItemId>, tries: seq<Try>, k: nat)
    requires |order| == |tries| && k < |order| && order[k] in Undone(s.items) && Clear(s.t, tries[k])
    requires !Blocked(s.t, order[k].0, s.items[order[k]].action)
    ensures Undone(After(s, Tries(order, tries, |order|)).items) != Undone(s.items)
  {
    hide Step, Blocked, Clear;
    var before := After(s, Tries(order, tries, k));
    var after := After(s, Tries(order, tries, k + 1));
    SweepSplits(s, order, tries, k);
    AfterOnward(s, Tries(order, tries, k));
    SweepOnward(s, order, tries, k + 1);
    if Undone(before.items) == Undone(s.items) {
      ClearTrySucceeds(before, order[k], tries[k]);
      TryEnds(before, order[k], tries[k]);
    } else {
      StepUndone(before, Tried(order[k], tries[k]));
    }
  }

  lemma TryEnds(s: Rewinding, id: ItemId, x: Try)
    requires id in Undone(s.items) && IsDone(TryItem(s, id, x).items, id)
    ensures id !in Undone(Step(s, Tried(id, x)).items)
  {
    hide TryItem;
  }

  lemma SweepSplits(s: Rewinding, order: seq<ItemId>, tries: seq<Try>, k: nat)
    requires k < |order| == |tries|
    ensures After(s, Tries(order, tries, k + 1)) == Step(After(s, Tries(order, tries, k)), Tried(order[k], tries[k]))
  {
    hide Step;
    assert Tries(order, tries, k + 1) == Tries(order, tries, k) + [Tried(order[k], tries[k])];
    AfterOneMore(s, Tries(order, tries, k), Tried(order[k], tries[k]));
  }

  lemma {:induction false} SweepOnward(s: Rewinding, order: seq<ItemId>, tries: seq<Try>, k: nat)
    requires k <= |order| == |tries|
    ensures Undone(After(s, Tries(order, tries, |order|)).items) <= Undone(After(s, Tries(order, tries, k)).items)
    decreases |order| - k
  {
    hide Step;
    if k < |order| {
      SweepOnward(s, order, tries, k + 1);
      SweepSplits(s, order, tries, k);
      StepUndone(After(s, Tries(order, tries, k)), Tried(order[k], tries[k]));
    }
  }

  ghost predicate FullPasses(s: Rewinding, passes: seq<Pass>) {
    && (forall p | p in passes :: WellFormed(p))
    && forall n | 0 <= n < |passes| :: FullPass(AfterPasses(s, passes[..n]), passes[n])
  }

  /** Retrying ends: after as many clear passes as there are items, everything is DONE or what is left
      is blocked for good. */
  lemma {:induction false} RetryingEnds(s: Rewinding, passes: seq<Pass>)
    requires FullPasses(s, passes)
    ensures var s' := AfterPasses(s, passes);
      Stuck(s') || |Undone(s'.items)| + |passes| <= |Undone(s.items)|
    ensures |passes| >= |Undone(s.items)| ==> Stuck(AfterPasses(s, passes))
  {
    hide PassResult, Stuck, FullPass, WellFormed;
    if passes == [] {
      NothingLeft(s);
    } else {
      var n := |passes| - 1;
      var before := AfterPasses(s, passes[..n]);
      var after := AfterPasses(s, passes);
      FewerPasses(s, passes);
      RetryingEnds(s, passes[..n]);
      FullPassProgress(before, passes[n]);
      PassOnward(before, passes[n]);
      SmallerSet(Undone(after.items), Undone(before.items));
      if Stuck(before) { StuckAfterPass(before, passes[n]); }
      NothingLeft(after);
    }
  }

  lemma FewerPasses(s: Rewinding, passes: seq<Pass>)
    requires FullPasses(s, passes) && passes != []
    ensures FullPasses(s, passes[..|passes| - 1])
    ensures FullPass(AfterPasses(s, passes[..|passes| - 1]), passes[|passes| - 1])
  {
    hide FullPass, WellFormed, AfterPasses;
    var shorter := passes[..|passes| - 1];
    forall n | 0 <= n < |shorter| ensures FullPass(AfterPasses(s, shorter[..n]), shorter[n]) {
      assert shorter[..n] == passes[..n];
    }
  }

  lemma NothingLeft(s: Rewinding)
    ensures |Undone(s.items)| == 0 ==> Stuck(s) && AllDone(s.items)
  {
    hide Blocked;
    if |Undone(s.items)| == 0 {
      forall id | id in s.items ensures s.items[id].status == ItemDone {
        assert id !in Undone(s.items);
      }
    }
  }

  lemma StuckAfterPass(s: Rewinding, p: Pass)
    requires WellFormed(p) && Stuck(s)
    ensures Stuck(PassResult(s, p))
  {
    hide Step, Stuck, After;
    OpenedSame(s, p);
    var o := Opened(s, p);
    StuckForever(o, Tries(p.order, p.tries, p.stop));
    if p.stop < |p.order| && p.marked { StuckStep(After(o, Tries(p.order, p.tries, p.stop)), Begun(p.order[p.stop])); }
  }
}
