/** Plans with status items: what else decides whether they can finish. Two small workspaces, in which
    the passes are exactly those the item query allows. */
module RewindOrders {
  import opened Wrappers
  import opened CloudTables
  import opened RewindPlan
  import opened RewindRuns
  import opened RewindRetries
  import opened RewindKnots

  const LockedOut := Try(true, true, 0, 5)

  // ---------------------------------------------------------------- following a pass

  /** These are the file rows, and of the plan's items these are done. */
  predicate Stands(s: Rewinding, plan: map<ItemId, Item>, files: map<FileId, FileRow>, done: set<ItemId>) {
    && s.t == Tables(files, map[], map[])
    && s.items.Keys == plan.Keys
    && forall id | id in plan :: s.items[id].action == plan[id].action && (s.items[id].status == ItemDone <==> id in done)
  }

  /** What trying a move or a status item does here: nothing if a lease or another file on the path
      hinders it. */
  predicate Leads(plan: map<ItemId, Item>, files: map<FileId, FileRow>, done: set<ItemId>, id: ItemId, locked: bool,
                  files': map<FileId, FileRow>, done': set<ItemId>) {
    && id in plan && id !in done && id.0 in files && (plan[id].action.RestorePath? || plan[id].action.RestoreStatus?)
    && if locked || MetadataConflict(files, id.0, plan[id].action) then files' == files && done' == done
       else files' == files[id.0 := Target(files[id.0], plan[id].action)] && done' == done + {id}
  }

  lemma OneTry(s: Rewinding, plan: map<ItemId, Item>, files: map<FileId, FileRow>, done: set<ItemId>, id: ItemId, x: Try,
               files': map<FileId, FileRow>, done': set<ItemId>)
    requires Stands(s, plan, files, done) && Leads(plan, files, done, id, x.locked, files', done')
    ensures Stands(Step(s, Tried(id, x)), plan, files', done')
  {
    hide MetadataConflict;
  }

  lemma ResetStands(s: Rewinding, p: Pass, plan: map<ItemId, Item>, files: map<FileId, FileRow>, done: set<ItemId>)
    requires Stands(s, plan, files, done)
    ensures Stands(Opened(s, p), plan, files, done)
  {
  }

  lemma UndoneIs(s: Rewinding, plan: map<ItemId, Item>, files: map<FileId, FileRow>, done: set<ItemId>)
    requires Stands(s, plan, files, done)
    ensures Undone(s.items) == plan.Keys - done
  {
  }

  predicate Fresh(item: Item) {
    item.status == ItemPending && item.attempts == 0
  }

  lemma PreparedBy(w: Workspace, candidates: set<FileId>, time: Time, plan: map<ItemId, Item>)
    requires forall id | id in plan :: id.0 in candidates && id.0 in w.t.files && Fresh(plan[id]) && KindOf(plan[id].action) == id.1
    requires forall id | id in plan :: Wanted(w, time, id.0, plan[id].action)
    requires forall f, a | f in candidates && f in w.t.files && Wanted(w, time, f, a) ::
      (f, KindOf(a)) in plan && plan[(f, KindOf(a))].action == a
    ensures Prepared(w, candidates, time, Rewinding(w.t, w.history, plan))
  {
    hide Wanted, KindOf;
  }

  /** A pass in which nothing outside the tables hinders anything. */
  function FreePass(order: seq<ItemId>): Pass {
    Pass(false, order, seq(|order|, _ => Free), |order|, false)
  }

  lemma FreePassIsFull(s: Rewinding, order: seq<ItemId>)
    requires Selected(s.items, order) && |Undone(s.items)| <= 5000 && s.t.versions == map[]
    ensures FullPass(s, FreePass(order))
  {
    hide Selected, Undone;
  }

  /** All of the undone items, in the order of their actions. */
  lemma SelectedAll(items: map<ItemId, Item>, order: seq<ItemId>)
    requires |order| == |Undone(items)| <= PASS_LIMIT
    requires forall i | 0 <= i < |order| :: order[i] in Undone(items)
    requires forall i, j | 0 <= i < j < |order| :: order[i] != order[j] && Rank(order[i].1) <= Rank(order[j].1)
    ensures Selected(items, order)
  {
    hide Undone, Rank;
    AllSelected(Undone(items), order);
  }

  /** A full pass over two items, three, and four. */
  lemma PassOfTwo(s: Rewinding, p: Pass)
    requires FullPass(s, p) && |p.order| == 2
    ensures PassResult(s, p) == Step(Step(Opened(s, p), Tried(p.order[0], p.tries[0])), Tried(p.order[1], p.tries[1]))
    ensures !p.tries[0].locked && !p.tries[1].locked
  {
    hide Step, Opened, Selected;
    var o := Opened(s, p);
    SweepSplits(o, p.order, p.tries, 0);
    SweepSplits(o, p.order, p.tries, 1);
    assert Tries(p.order, p.tries, 0) == [];
  }

  lemma PassOfThree(s: Rewinding, p: Pass)
    requires WellFormed(p) && p.stop == |p.order| == 3
    ensures PassResult(s, p)
      == Step(Step(Step(Opened(s, p), Tried(p.order[0], p.tries[0])), Tried(p.order[1], p.tries[1])), Tried(p.order[2], p.tries[2]))
  {
    hide Step, Opened;
    var o := Opened(s, p);
    SweepSplits(o, p.order, p.tries, 0);
    SweepSplits(o, p.order, p.tries, 1);
    SweepSplits(o, p.order, p.tries, 2);
    assert Tries(p.order, p.tries, 0) == [];
  }

  lemma PassOfFour(s: Rewinding, order: seq<ItemId>)
    requires |order| == 4
    ensures PassResult(s, FreePass(order))
      == Step(Step(Step(Step(s, Tried(order[0], Free)), Tried(order[1], Free)), Tried(order[2], Free)), Tried(order[3], Free))
  {
    hide Step;
    var tries := FreePass(order).tries;
    SweepSplits(s, order, tries, 0);
    SweepSplits(s, order, tries, 1);
    SweepSplits(s, order, tries, 2);
    SweepSplits(s, order, tries, 3);
    assert Tries(order, tries, 0) == [];
  }

  lemma Letters()
    ensures !SamePath("p", "q") && !SamePath("q", "p") && !SamePath("z", "p") && !SamePath("p", "z") && !SamePath("q", "z") && !SamePath("z", "q")
    ensures SamePath("p", "p") && SamePath("q", "q")
  {
    assert NoCase("p")[0] == 'p' && NoCase("q")[0] == 'q' && NoCase("z")[0] == 'z';
  }

  // ---------------------------------------------------------------- the order within one action

  // One file in the trash at "p" that was active at "q", one at "q" that was at "p", and one at "p" that
  // was at "z".
  const LinedFiles := map[1 := Named("p", Trashed), 2 := Named("q", Active), 3 := Named("p", Active)]
  const LinedLog := [Was(1, "q"), Was(2, "p"), Was(3, "z")]
  const LinedItems := map[(1, KRestorePath) := Pending(RestorePath("q", "q")), (1, KRestoreStatus) := Pending(RestoreStatus(Active)),
                          (2, KRestorePath) := Pending(RestorePath("p", "p")), (3, KRestorePath) := Pending(RestorePath("z", "z"))]

  function Lined(): Workspace {
    Small(LinedFiles, LinedLog)
  }

  function LinedPlan(): Rewinding {
    Rewinding(Lined().t, LinedLog, LinedItems)
  }

  const Rising: seq<ItemId> := [(1, KRestorePath), (2, KRestorePath), (3, KRestorePath), (1, KRestoreStatus)]
  const Falling: seq<ItemId> := [(3, KRestorePath), (2, KRestorePath), (1, KRestorePath), (1, KRestoreStatus)]

  /** One prepared plan and two first passes under clear conditions, which differ only in the order of
      three moves: after the one everything left is blocked for good, after the other all is done. */
  lemma OrderDecides()
    ensures Prepared(Lined(), {1, 2, 3}, 1, LinedPlan()) && DistinctTargets(Lined(), LinedItems)
    ensures FullPass(LinedPlan(), FreePass(Rising)) && FullPass(LinedPlan(), FreePass(Falling))
    ensures var s := PassResult(LinedPlan(), FreePass(Rising)); Stuck(s) && !AllDone(s.items)
    ensures AllDone(PassResult(LinedPlan(), FreePass(Falling)).items)
    ensures LogReal(Lined())
  {
    hide LogReal, Prepared, FullPass, PassResult, Stuck, AllDone, DistinctTargets;
    SmallIsReal(LinedFiles, LinedLog);
    LinedIsPrepared();
    LinedTargets();
    LinedPasses();
    RisingWedges();
    FallingCompletes();
  }

  lemma LinedWants()
    ensures forall a :: Wanted(Lined(), 1, 1, a) <==> a == RestorePath("q", "q") || a == RestoreStatus(Active)
    ensures forall a :: Wanted(Lined(), 1, 2, a) <==> a == RestorePath("p", "p")
    ensures forall a :: Wanted(Lined(), 1, 3, a) <==> a == RestorePath("z", "z")
  {
    hide LastAt, Wanted;
    var w := Lined();
    OnlySnapshot(LinedLog, 1, 1, 0);
    OnlySnapshot(LinedLog, 2, 1, 1);
    OnlySnapshot(LinedLog, 3, 1, 2);
    WantsMove(w, 1, LinedLog[0]);
    WantsMove(w, 2, LinedLog[1]);
    WantsMove(w, 3, LinedLog[2]);
  }

  lemma LinedIsPrepared()
    ensures Prepared(Lined(), {1, 2, 3}, 1, LinedPlan())
  {
    hide Wanted, Lined, ItemsOf, KindOf;
    LinedFits();
    LinedCovers();
    PreparedBy(Lined(), {1, 2, 3}, 1, LinedItems);
    assert Lined().history == LinedLog by { LinedIs(); }
  }

  lemma LinedIs()
    ensures Lined().history == LinedLog
  {
  }

  lemma LinedFits()
    ensures forall id | id in LinedItems :: id.0 in {1, 2, 3} && id.0 in Lined().t.files && Fresh(LinedItems[id]) && KindOf(LinedItems[id].action) == id.1
    ensures forall id | id in LinedItems :: Wanted(Lined(), 1, id.0, LinedItems[id].action)
  {
    hide Wanted;
    LinedWants();
  }

  lemma LinedCovers()
    ensures forall f, a | f in {1, 2, 3} && f in Lined().t.files && Wanted(Lined(), 1, f, a) :: (f, KindOf(a)) in LinedItems && LinedItems[(f, KindOf(a))].action == a
  {
    hide Wanted;
    LinedWants();
  }

  lemma LinedTargets()
    ensures DistinctTargets(Lined(), LinedItems)
  {
    hide SamePath;
    Letters();
  }

  lemma LinedPasses()
    ensures FullPass(LinedPlan(), FreePass(Rising)) && FullPass(LinedPlan(), FreePass(Falling))
  {
    hide Selected, Undone, FullPass;
    LinedUndone();
    LinedOrder(Rising);
    LinedOrder(Falling);
    FreePassIsFull(LinedPlan(), Rising);
    FreePassIsFull(LinedPlan(), Falling);
  }

  lemma LinedUndone()
    ensures Undone(LinedItems) == {(1, KRestorePath), (1, KRestoreStatus), (2, KRestorePath), (3, KRestorePath)}
    ensures |Undone(LinedItems)| == 4
  {
    assert Undone(LinedItems) == {(1, KRestorePath), (1, KRestoreStatus), (2, KRestorePath), (3, KRestorePath)};
  }

  lemma LinedOrder(order: seq<ItemId>)
    requires order == Rising || order == Falling
    ensures Selected(LinedItems, order)
  {
    hide Undone, Selected;
    LinedUndone();
    assert order[3] == (1, KRestoreStatus);
    SelectedAll(LinedItems, order);
  }

  const LinedMoved := map[1 := Named("p", Trashed), 2 := Named("q", Active), 3 := Named("z", Active)]
  const LinedWedged := map[1 := Named("p", Active), 2 := Named("q", Active), 3 := Named("z", Active)]
  const LinedHalf := map[1 := Named("p", Trashed), 2 := Named("p", Active), 3 := Named("z", Active)]
  const LinedPlaced := map[1 := Named("q", Trashed), 2 := Named("p", Active), 3 := Named("z", Active)]
  const LinedLast := map[1 := Named("q", Active), 2 := Named("p", Active), 3 := Named("z", Active)]

  lemma RisingWedges()
    ensures var s := PassResult(LinedPlan(), FreePass(Rising)); Stuck(s) && !AllDone(s.items)
  {
    hide Step, PassResult, Leads, Stuck, AllDone, Stands;
    PassOfFour(LinedPlan(), Rising);
    LinedStart();
    RisingLeads();
    var plan := LinedItems;
    var s0 := LinedPlan();
    OneTry(s0, plan, LinedFiles, {}, Rising[0], Free, LinedFiles, {});
    var s1 := Step(s0, Tried(Rising[0], Free));
    OneTry(s1, plan, LinedFiles, {}, Rising[1], Free, LinedFiles, {});
    var s2 := Step(s1, Tried(Rising[1], Free));
    OneTry(s2, plan, LinedFiles, {}, Rising[2], Free, LinedMoved, {Rising[2]});
    var s3 := Step(s2, Tried(Rising[2], Free));
    OneTry(s3, plan, LinedMoved, {Rising[2]}, Rising[3], Free, LinedWedged, {Rising[2], Rising[3]});
    LinedIsStuck(Step(s3, Tried(Rising[3], Free)));
  }

  lemma LinedStart()
    ensures Stands(LinedPlan(), LinedItems, LinedFiles, {})
  {
  }

  lemma RisingLeads()
    ensures Leads(LinedItems, LinedFiles, {}, Rising[0], false, LinedFiles, {})
    ensures Leads(LinedItems, LinedFiles, {}, Rising[1], false, LinedFiles, {})
    ensures Leads(LinedItems, LinedFiles, {}, Rising[2], false, LinedMoved, {Rising[2]})
    ensures Leads(LinedItems, LinedMoved, {Rising[2]}, Rising[3], false, LinedWedged, {Rising[2], Rising[3]})
  {
    hide SamePath;
    Letters();
    assert Occupies(LinedFiles[2], 0, "q") && Occupies(LinedFiles[3], 0, "p");
  }

  lemma LinedIsStuck(s: Rewinding)
    requires Stands(s, LinedItems, LinedWedged, {Rising[2], Rising[3]})
    ensures Stuck(s) && !AllDone(s.items)
  {
    hide SamePath;
    Letters();
    UndoneIs(s, LinedItems, LinedWedged, {Rising[2], Rising[3]});
    assert Occupies(LinedWedged[1], 0, "p") && Occupies(LinedWedged[2], 0, "q");
    assert (1, KRestorePath) in s.items;
  }

  lemma FallingCompletes()
    ensures AllDone(PassResult(LinedPlan(), FreePass(Falling)).items)
  {
    hide Step, PassResult, Leads, AllDone, Stands;
    PassOfFour(LinedPlan(), Falling);
    LinedStart();
    FallingLeads();
    var plan := LinedItems;
    var s0 := LinedPlan();
    OneTry(s0, plan, LinedFiles, {}, Falling[0], Free, LinedMoved, {Falling[0]});
    var s1 := Step(s0, Tried(Falling[0], Free));
    OneTry(s1, plan, LinedMoved, {Falling[0]}, Falling[1], Free, LinedHalf, {Falling[0], Falling[1]});
    var s2 := Step(s1, Tried(Falling[1], Free));
    OneTry(s2, plan, LinedHalf, {Falling[0], Falling[1]}, Falling[2], Free, LinedPlaced, {Falling[0], Falling[1], Falling[2]});
    var s3 := Step(s2, Tried(Falling[2], Free));
    OneTry(s3, plan, LinedPlaced, {Falling[0], Falling[1], Falling[2]}, Falling[3], Free, LinedLast, {Falling[0], Falling[1], Falling[2], Falling[3]});
    AllOfThem(Step(s3, Tried(Falling[3], Free)), plan, LinedLast, {Falling[0], Falling[1], Falling[2], Falling[3]});
  }

  lemma AllOfThem(s: Rewinding, plan: map<ItemId, Item>, files: map<FileId, FileRow>, done: set<ItemId>)
    requires Stands(s, plan, files, done) && plan.Keys <= done
    ensures AllDone(s.items)
  {
  }

  lemma FallingLeads()
    ensures Leads(LinedItems, LinedFiles, {}, Falling[0], false, LinedMoved, {Falling[0]})
    ensures Leads(LinedItems, LinedMoved, {Falling[0]}, Falling[1], false, LinedHalf, {Falling[0], Falling[1]})
    ensures Leads(LinedItems, LinedHalf, {Falling[0], Falling[1]}, Falling[2], false, LinedPlaced, {Falling[0], Falling[1], Falling[2]})
    ensures Leads(LinedItems, LinedPlaced, {Falling[0], Falling[1], Falling[2]}, Falling[3], false, LinedLast,
                  {Falling[0], Falling[1], Falling[2], Falling[3]})
  {
    hide SamePath;
    Letters();
  }

  // ---------------------------------------------------------------- a lease at the wrong moment

  // The first two of these files alone.
  const CrossedFiles := map[1 := Named("p", Trashed), 2 := Named("q", Active)]
  const CrossedLog := [Was(1, "q"), Was(2, "p")]
  const CrossedItems := map[(1, KRestorePath) := Pending(RestorePath("q", "q")), (1, KRestoreStatus) := Pending(RestoreStatus(Active)),
                            (2, KRestorePath) := Pending(RestorePath("p", "p"))]

  function Crossed(): Workspace {
    Small(CrossedFiles, CrossedLog)
  }

  function CrossedPlan(): Rewinding {
    Rewinding(Crossed().t, CrossedLog, CrossedItems)
  }

  /** The second file is being edited by somebody while its move is tried. */
  const Interrupted := Pass(false, [(1, KRestorePath), (2, KRestorePath), (1, KRestoreStatus)], [Free, LockedOut, Free], 3, false)

  /** Whatever the order, two passes under clear conditions complete this plan; but one lease in the
      first of them, however short, and it is wedged for good. */
  lemma LeaseDecides(passes: seq<Pass>)
    requires FullPasses(CrossedPlan(), passes) && |passes| >= 2
    ensures Prepared(Crossed(), {1, 2}, 1, CrossedPlan())
    ensures AllDone(AfterPasses(CrossedPlan(), passes).items)
    ensures Selected(CrossedItems, Interrupted.order)
    ensures var s := PassResult(CrossedPlan(), Interrupted); Stuck(s) && !AllDone(s.items)
    ensures LogReal(Crossed())
  {
    hide LogReal, Prepared, FullPasses, AfterPasses, PassResult, Stuck, AllDone, Selected;
    SmallIsReal(CrossedFiles, CrossedLog);
    CrossedIsPrepared();
    InterruptedWedges();
    ClearCompletes(passes);
  }

  lemma CrossedWants()
    ensures forall a :: Wanted(Crossed(), 1, 1, a) <==> a == RestorePath("q", "q") || a == RestoreStatus(Active)
    ensures forall a :: Wanted(Crossed(), 1, 2, a) <==> a == RestorePath("p", "p")
  {
    hide LastAt, Wanted;
    var w := Crossed();
    OnlySnapshot(CrossedLog, 1, 1, 0);
    OnlySnapshot(CrossedLog, 2, 1, 1);
    WantsMove(w, 1, CrossedLog[0]);
    WantsMove(w, 2, CrossedLog[1]);
  }

  lemma CrossedIsPrepared()
    ensures Prepared(Crossed(), {1, 2}, 1, CrossedPlan())
  {
    hide Wanted, Crossed, ItemsOf, KindOf;
    CrossedFits();
    CrossedCovers();
    PreparedBy(Crossed(), {1, 2}, 1, CrossedItems);
    assert Crossed().history == CrossedLog by { CrossedIs(); }
  }

  lemma CrossedIs()
    ensures Crossed().history == CrossedLog
  {
  }

  lemma CrossedFits()
    ensures forall id | id in CrossedItems :: id.0 in {1, 2} && id.0 in Crossed().t.files && Fresh(CrossedItems[id]) && KindOf(CrossedItems[id].action) == id.1
    ensures forall id | id in CrossedItems :: Wanted(Crossed(), 1, id.0, CrossedItems[id].action)
  {
    hide Wanted;
    CrossedWants();
  }

  lemma CrossedCovers()
    ensures forall f, a | f in {1, 2} && f in Crossed().t.files && Wanted(Crossed(), 1, f, a) :: (f, KindOf(a)) in CrossedItems && CrossedItems[(f, KindOf(a))].action == a
  {
    hide Wanted;
    CrossedWants();
  }

  const CrossedHalf := map[1 := Named("p", Trashed), 2 := Named("p", Active)]
  const CrossedPlaced := map[1 := Named("q", Trashed), 2 := Named("p", Active)]
  const CrossedLast := map[1 := Named("q", Active), 2 := Named("p", Active)]
  const CrossedWedged := map[1 := Named("p", Active), 2 := Named("q", Active)]
  const Path1: ItemId := (1, KRestorePath)
  const Path2: ItemId := (2, KRestorePath)
  const Status1: ItemId := (1, KRestoreStatus)

  lemma CrossedStart()
    ensures Stands(CrossedPlan(), CrossedItems, CrossedFiles, {})
    ensures CrossedItems.Keys == {Path1, Path2, Status1}
  {
  }

  lemma CrossedLeads()
    ensures Leads(CrossedItems, CrossedFiles, {}, Path1, false, CrossedFiles, {})
    ensures Leads(CrossedItems, CrossedFiles, {}, Path2, true, CrossedFiles, {})
    ensures Leads(CrossedItems, CrossedFiles, {}, Status1, false, CrossedWedged, {Status1})
    ensures Leads(CrossedItems, CrossedFiles, {}, Path2, false, CrossedHalf, {Path2})
    ensures Leads(CrossedItems, CrossedHalf, {Path2}, Status1, false, CrossedHalf, {Path2})
    ensures Leads(CrossedItems, CrossedHalf, {Path2}, Path1, false, CrossedPlaced, {Path2, Path1})
    ensures Leads(CrossedItems, CrossedPlaced, {Path2, Path1}, Status1, false, CrossedLast, {Path2, Path1, Status1})
  {
    hide SamePath;
    Letters();
    assert Occupies(CrossedFiles[2], 0, "q") && Occupies(CrossedHalf[2], 0, "p");
  }

  lemma InterruptedWedges()
    ensures Selected(CrossedItems, Interrupted.order)
    ensures var s := PassResult(CrossedPlan(), Interrupted); Stuck(s) && !AllDone(s.items)
  {
    hide Step, PassResult, Leads, Stands, Stuck, AllDone, Selected, Undone;
    InterruptedSelected();
    PassOfThree(CrossedPlan(), Interrupted);
    CrossedStart();
    CrossedLeads();
    var s0 := CrossedPlan();
    OneTry(s0, CrossedItems, CrossedFiles, {}, Path1, Free, CrossedFiles, {});
    var s1 := Step(s0, Tried(Path1, Free));
    OneTry(s1, CrossedItems, CrossedFiles, {}, Path2, LockedOut, CrossedFiles, {});
    var s2 := Step(s1, Tried(Path2, LockedOut));
    OneTry(s2, CrossedItems, CrossedFiles, {}, Status1, Free, CrossedWedged, {Status1});
    CrossedIsStuck(Step(s2, Tried(Status1, Free)));
  }

  lemma InterruptedSelected()
    ensures Selected(CrossedItems, Interrupted.order)
  {
    hide Undone, Selected, Stands;
    CrossedStart();
    UndoneIs(CrossedPlan(), CrossedItems, CrossedFiles, {});
    assert Undone(CrossedItems) == {Path1, Path2, Status1};
    SelectedAll(CrossedItems, Interrupted.order);
  }

  lemma CrossedIsStuck(s: Rewinding)
    requires Stands(s, CrossedItems, CrossedWedged, {Status1})
    ensures Stuck(s) && !AllDone(s.items)
  {
    hide SamePath;
    Letters();
    UndoneIs(s, CrossedItems, CrossedWedged, {Status1});
    assert Occupies(CrossedWedged[1], 0, "p") && Occupies(CrossedWedged[2], 0, "q");
    assert Path1 in s.items;
  }

  lemma {:induction false} ClearCompletes(passes: seq<Pass>)
    requires FullPasses(CrossedPlan(), passes) && |passes| >= 2
    ensures AllDone(AfterPasses(CrossedPlan(), passes).items)
  {
    hide PassResult, FullPass, WellFormed, AllDone;
    if |passes| == 2 {
      TwoComplete(passes);
    } else {
      var n := |passes| - 1;
      FewerPasses(CrossedPlan(), passes);
      ClearCompletes(passes[..n]);
      PassOnward(AfterPasses(CrossedPlan(), passes[..n]), passes[n]);
      NoneUndone(AfterPasses(CrossedPlan(), passes[..n]).items);
      NothingLeft(AfterPasses(CrossedPlan(), passes));
    }
  }

  lemma NoneUndone(items: map<ItemId, Item>)
    requires AllDone(items)
    ensures Undone(items) == {}
  {
  }

  lemma TwoComplete(passes: seq<Pass>)
    requires FullPasses(CrossedPlan(), passes) && |passes| == 2
    ensures AllDone(AfterPasses(CrossedPlan(), passes).items)
  {
    hide PassResult, FullPass, WellFormed;
    var first := passes[..1];
    FewerPasses(CrossedPlan(), passes);
    FewerPasses(CrossedPlan(), first);
    assert first[..0] == [] && first[0] == passes[0] && passes[..|passes| - 1] == first;
    assert AfterPasses(CrossedPlan(), []) == CrossedPlan();
    var s := PassResult(CrossedPlan(), passes[0]);
    assert AfterPasses(CrossedPlan(), first) == s;
    FirstPass(passes[0]);
    if Stands(s, CrossedItems, CrossedLast, CrossedItems.Keys) {
      StaysDone(s, passes[1]);
    } else {
      SecondPass(s, passes[1]);
    }
  }

  lemma StaysDone(s: Rewinding, p: Pass)
    requires WellFormed(p) && Stands(s, CrossedItems, CrossedLast, CrossedItems.Keys)
    ensures AllDone(PassResult(s, p).items)
  {
    hide PassResult;
    UndoneIs(s, CrossedItems, CrossedLast, CrossedItems.Keys);
    PassOnward(s, p);
    NothingLeft(PassResult(s, p));
  }

  /** The status item comes third, the two moves before it in one order or the other. */
  lemma FirstPass(p: Pass)
    requires FullPass(CrossedPlan(), p)
    ensures var s := PassResult(CrossedPlan(), p);
      Stands(s, CrossedItems, CrossedLast, CrossedItems.Keys) || Stands(s, CrossedItems, CrossedHalf, {Path2})
  {
    hide Step, PassResult, Stands, Undone, Opened, Selected;
    CrossedStart();
    var o := Opened(CrossedPlan(), p);
    ResetStands(CrossedPlan(), p, CrossedItems, CrossedFiles, {});
    UndoneIs(o, CrossedItems, CrossedFiles, {});
    FirstOrder(o.items, p.order);
    PassOfThree(CrossedPlan(), p);
    ClearTries(CrossedPlan(), p);
    if p.order[0] == Path1 {
      FirstThenSecond(o, p.tries);
    } else {
      SecondThenFirst(o, p.tries);
    }
  }

  lemma ClearTries(s: Rewinding, p: Pass)
    requires FullPass(s, p)
    ensures forall k | 0 <= k < |p.tries| :: !p.tries[k].locked
  {
    hide Selected;
  }

  lemma FirstOrder(items: map<ItemId, Item>, order: seq<ItemId>)
    requires Selected(items, order) && Undone(items) == {Path1, Path2, Status1}
    ensures order == [Path1, Path2, Status1] || order == [Path2, Path1, Status1]
  {
    hide Undone;
    assert |order| == 3;
    assert order[0] != order[1] && order[1] != order[2] && order[0] != order[2];
    assert Rank(order[0].1) <= Rank(order[1].1) <= Rank(order[2].1);
  }

  lemma FirstThenSecond(s: Rewinding, tries: seq<Try>)
    requires Stands(s, CrossedItems, CrossedFiles, {}) && |tries| == 3 && forall k | 0 <= k < 3 :: !tries[k].locked
    ensures var s1 := Step(s, Tried(Path1, tries[0])); var s2 := Step(s1, Tried(Path2, tries[1]));
      Stands(Step(s2, Tried(Status1, tries[2])), CrossedItems, CrossedHalf, {Path2})
  {
    hide Step, Leads, Stands;
    CrossedLeads();
    OneTry(s, CrossedItems, CrossedFiles, {}, Path1, tries[0], CrossedFiles, {});
    var s1 := Step(s, Tried(Path1, tries[0]));
    OneTry(s1, CrossedItems, CrossedFiles, {}, Path2, tries[1], CrossedHalf, {Path2});
    OneTry(Step(s1, Tried(Path2, tries[1])), CrossedItems, CrossedHalf, {Path2}, Status1, tries[2], CrossedHalf, {Path2});
  }

  lemma SecondThenFirst(s: Rewinding, tries: seq<Try>)
    requires Stands(s, CrossedItems, CrossedFiles, {}) && |tries| == 3 && forall k | 0 <= k < 3 :: !tries[k].locked
    ensures var s1 := Step(s, Tried(Path2, tries[0])); var s2 := Step(s1, Tried(Path1, tries[1]));
      Stands(Step(s2, Tried(Status1, tries[2])), CrossedItems, CrossedLast, CrossedItems.Keys)
  {
    hide Step, Leads, Stands;
    CrossedLeads();
    OneTry(s, CrossedItems, CrossedFiles, {}, Path2, tries[0], CrossedHalf, {Path2});
    RestUp(Step(s, Tried(Path2, tries[0])), tries[1], tries[2]);
  }

  /** With the second file out of the way the first one gets its path and its status back. */
  lemma RestUp(s: Rewinding, x: Try, y: Try)
    requires Stands(s, CrossedItems, CrossedHalf, {Path2}) && !x.locked && !y.locked
    ensures Stands(Step(Step(s, Tried(Path1, x)), Tried(Status1, y)), CrossedItems, CrossedLast, CrossedItems.Keys)
  {
    hide Step, Leads, Stands;
    CrossedStart();
    CrossedLeads();
    OneTry(s, CrossedItems, CrossedHalf, {Path2}, Path1, x, CrossedPlaced, {Path2, Path1});
    OneTry(Step(s, Tried(Path1, x)), CrossedItems, CrossedPlaced, {Path2, Path1}, Status1, y, CrossedLast, {Path2, Path1, Status1});
    assert {Path2, Path1, Status1} == CrossedItems.Keys;
  }

  lemma SecondPass(s: Rewinding, p: Pass)
    requires FullPass(s, p) && Stands(s, CrossedItems, CrossedHalf, {Path2})
    ensures AllDone(PassResult(s, p).items)
  {
    hide Step, PassResult, Stands, Undone, Opened, Selected, AllDone;
    CrossedStart();
    var o := Opened(s, p);
    ResetStands(s, p, CrossedItems, CrossedHalf, {Path2});
    UndoneIs(o, CrossedItems, CrossedHalf, {Path2});
    assert CrossedItems.Keys - {Path2} == {Path1, Status1};
    SecondOrder(o.items, p.order);
    PassOfTwo(s, p);
    RestUp(o, p.tries[0], p.tries[1]);
    AllOfThem(PassResult(s, p), CrossedItems, CrossedLast, CrossedItems.Keys);
  }

  lemma SecondOrder(items: map<ItemId, Item>, order: seq<ItemId>)
    requires Selected(items, order) && Undone(items) == {Path1, Status1}
    ensures order == [Path1, Status1]
  {
    hide Undone;
    assert |order| == 2;
    assert order[0] != order[1] && Rank(order[0].1) <= Rank(order[1].1);
  }
}
