/** The bounded comparison of two workbooks, cell by cell. */
module VersionDiff {
  import opened Wrappers

  const MAX_TOTAL_COMPARE_CELLS := 250_000
  const MAX_COMPARE_CELLS_PER_SHEET := 150_000
  const MAX_REPORTED_CHANGES := 5_000

  datatype CellSnapshot = CellSnapshot(value: string, formula: Option<string>)
  type Position = (nat, nat)  // row and column, both from 1

  const Blank := CellSnapshot("", None)

  /** Cells not stored are blank. */
  datatype Sheet = Sheet(rows: nat, columns: nat, cells: map<Position, CellSnapshot>)

  /** Sheets in tab order; names are unique within a workbook. */
  datatype Workbook = Workbook(names: seq<string>, sheets: map<string, Sheet>)

  datatype ChangeType = Value | Formula | ValueAndFormula
  datatype Change = Change(at: Position, before: CellSnapshot, after: CellSnapshot, changeType: ChangeType)

  datatype SheetStatus = Added | Removed | Changed | Unchanged
  datatype SheetView = SheetView(
    name: string,
    status: SheetStatus,
    modifiedCells: nat,
    addedRows: nat,
    removedRows: nat,
    changes: seq<Change>,
    truncated: bool)

  datatype GuardReason = WorkbookTooLarge | TooManyChangedCells
  datatype Summary = Summary(sheetsAdded: nat, sheetsRemoved: nat, sheetsChanged: nat, modifiedCells: nat, truncated: bool,
                             guardReason: Option<GuardReason>)

  function CellAt(s: Sheet, p: Position): CellSnapshot {
    if p in s.cells then s.cells[p] else Blank
  }

  function Max(a: nat, b: nat): nat {
    if a < b then b else a
  }

  function Growth(a: nat, b: nat): nat {
    if a < b then b - a else 0
  }

  // ---------------------------------------------------------------- one cell

  function ChangedCell(p: Position, before: CellSnapshot, after: CellSnapshot): (r: Option<Change>)
    ensures r.None? <==> before == after
    ensures r.Some? ==> r.value.at == p && r.value.before == before && r.value.after == after
    ensures r.Some? ==> (r.value.changeType.Value? <==> before.formula == after.formula)
    ensures r.Some? ==> (r.value.changeType.Formula? <==> before.value == after.value)
  {
    var valueChanged := before.value != after.value;
    var formulaChanged := before.formula != after.formula;
    if !valueChanged && !formulaChanged then None
    else Some(Change(p, before, after, if valueChanged && formulaChanged then ValueAndFormula else if formulaChanged then Formula else Value))
  }

  function At(before: Sheet, after: Sheet, p: Position): seq<Change> {
    var c := ChangedCell(p, CellAt(before, p), CellAt(after, p));
    if c.Some? then [c.value] else []
  }

  // ---------------------------------------------------------------- all the changes there are

  /** Columns 1..c of row r. */
  function RowChanges(before: Sheet, after: Sheet, r: nat, c: nat): seq<Change> {
    if c == 0 then [] else RowChanges(before, after, r, c - 1) + At(before, after, (r, c))
  }

  /** Rows 1..r, in the order a reader sees them. */
  function SheetChanges(before: Sheet, after: Sheet, r: nat, columns: nat): seq<Change> {
    if r == 0 then [] else SheetChanges(before, after, r - 1, columns) + RowChanges(before, after, r, columns)
  }

  function Rows(before: Sheet, after: Sheet): nat {
    Max(before.rows, after.rows)
  }

  function Columns(before: Sheet, after: Sheet): nat {
    Max(before.columns, after.columns)
  }

  function AllChanges(before: Sheet, after: Sheet): seq<Change> {
    SheetChanges(before, after, Rows(before, after), Columns(before, after))
  }

  /** Inside the rectangle that is compared. */
  predicate Inside(before: Sheet, after: Sheet, p: Position) {
    1 <= p.0 <= Rows(before, after) && 1 <= p.1 <= Columns(before, after)
  }

  predicate Earlier(p: Position, q: Position) {
    p.0 < q.0 || (p.0 == q.0 && p.1 < q.1)
  }

  /** x tells the truth about its cell, and the cell differs. */
  predicate True(before: Sheet, after: Sheet, x: Change) {
    Some(x) == ChangedCell(x.at, CellAt(before, x.at), CellAt(after, x.at))
  }

  predicate InOrder(changes: seq<Change>) {
    forall i, j | 0 <= i < j < |changes| :: Earlier(changes[i].at, changes[j].at)
  }

  lemma AtIs(before: Sheet, after: Sheet, p: Position)
    ensures forall x :: x in At(before, after, p) <==> x.at == p && True(before, after, x)
    ensures InOrder(At(before, after, p))
  {
  }

  lemma {:induction false} RowChangesAre(before: Sheet, after: Sheet, r: nat, c: nat)
    ensures forall x :: x in RowChanges(before, after, r, c) <==> x.at.0 == r && 1 <= x.at.1 <= c && True(before, after, x)
    ensures InOrder(RowChanges(before, after, r, c))
  {
    hide At, True;
    if c > 0 {
      RowChangesAre(before, after, r, c - 1);
      AtIs(before, after, (r, c));
      AppendInOrder(RowChanges(before, after, r, c - 1), At(before, after, (r, c)));
    }
  }

  lemma AppendInOrder(a: seq<Change>, b: seq<Change>)
    requires InOrder(a) && InOrder(b) && forall x, y | x in a && y in b :: Earlier(x.at, y.at)
    ensures InOrder(a + b)
  {
    var c := a + b;
    forall i, j | 0 <= i < j < |c| ensures Earlier(c[i].at, c[j].at) {
      if i < |a| <= j { assert c[i] in a && c[j] in b; }
    }
  }

  /** Exactly the cells that differ, each once, in reading order. */
  lemma {:induction false} SheetChangesAre(before: Sheet, after: Sheet, r: nat, columns: nat)
    ensures forall x :: x in SheetChanges(before, after, r, columns) <==> 1 <= x.at.0 <= r && 1 <= x.at.1 <= columns && True(before, after, x)
    ensures InOrder(SheetChanges(before, after, r, columns))
  {
    hide True, RowChanges, InOrder;
    if r == 0 {
      NothingInOrder();
    } else {
      SheetChangesAre(before, after, r - 1, columns);
      RowChangesAre(before, after, r, columns);
      AppendInOrder(SheetChanges(before, after, r - 1, columns), RowChanges(before, after, r, columns));
    }
  }

  lemma NothingInOrder()
    ensures InOrder([])
  {
  }

  // ---------------------------------------------------------------- the changes as a patch

  function Patched(s: Sheet, changes: seq<Change>): Sheet {
    if changes == [] then s
    else
      var x := changes[|changes| - 1];
      var rest := Patched(s, changes[..|changes| - 1]);
      rest.(cells := rest.cells[x.at := x.after])
  }

  function Reversed(changes: seq<Change>): seq<Change> {
    seq(|changes|, i requires 0 <= i < |changes| => var x := changes[i]; Change(x.at, x.after, x.before, x.changeType))
  }

  lemma {:induction false} PatchedAt(s: Sheet, changes: seq<Change>, p: Position)
    requires forall i, j | 0 <= i < j < |changes| :: changes[i].at != changes[j].at
    ensures (forall x | x in changes :: x.at != p) ==> CellAt(Patched(s, changes), p) == CellAt(s, p)
    ensures forall x | x in changes && x.at == p :: CellAt(Patched(s, changes), p) == x.after
  {
    if changes != [] {
      var n := |changes| - 1;
      var shorter := changes[..n];
      PatchedAt(s, shorter, p);
      assert changes[n] in changes;
      forall x | x in shorter ensures x in changes && x.at != changes[n].at {}
      forall x | x in changes && x.at == p ensures CellAt(Patched(s, changes), p) == x.after {
        if x != changes[n] { assert x in shorter; }
      }
    }
  }

  /** The patch turns the old sheet's rectangle into the new one's, backwards the new into the old,
      and lists no cell that did not change. */
  lemma DiffIsExactPatch(before: Sheet, after: Sheet)
    ensures var all := AllChanges(before, after);
      && (forall p | Inside(before, after, p) ::
            CellAt(Patched(before, all), p) == CellAt(after, p) && CellAt(Patched(after, Reversed(all)), p) == CellAt(before, p))
      && (forall x | x in all :: Inside(before, after, x.at) && CellAt(before, x.at) != CellAt(after, x.at))
  {
    var all := AllChanges(before, after);
    SheetChangesAre(before, after, Rows(before, after), Columns(before, after));
    hide SheetChanges, Patched;
    forall p | Inside(before, after, p)
      ensures CellAt(Patched(before, all), p) == CellAt(after, p) && CellAt(Patched(after, Reversed(all)), p) == CellAt(before, p)
    {
      CellIsPatched(before, after, p);
    }
  }

  lemma CellIsPatched(before: Sheet, after: Sheet, p: Position)
    requires Inside(before, after, p)
    ensures var all := AllChanges(before, after);
      CellAt(Patched(before, all), p) == CellAt(after, p) && CellAt(Patched(after, Reversed(all)), p) == CellAt(before, p)
  {
    var all := AllChanges(before, after);
    SheetChangesAre(before, after, Rows(before, after), Columns(before, after));
    hide SheetChanges, Patched, CellAt;
    PatchedAt(before, all, p);
    PatchedAt(after, Reversed(all), p);
    if CellAt(before, p) == CellAt(after, p) {
      forall x | x in Reversed(all) ensures x.at != p {
        var i :| 0 <= i < |all| && Reversed(all)[i] == x;
        assert all[i] in all;
      }
    } else {
      var x := ChangedCell(p, CellAt(before, p), CellAt(after, p)).value;
      assert True(before, after, x);
      var i :| 0 <= i < |all| && all[i] == x;
      assert Reversed(all)[i] in Reversed(all);
    }
  }

  // ---------------------------------------------------------------- the bounded scan of one sheet

  /** How many more changes a sheet may report: once the limit is reached, still one per sheet. */
  function Room(modifiedBefore: nat): (room: nat)
    ensures room >= 1
  {
    if modifiedBefore < MAX_REPORTED_CHANGES then MAX_REPORTED_CHANGES - modifiedBefore else 1
  }

  function Cut(all: seq<Change>, room: nat): seq<Change> {
    if |all| <= room then all else all[..room]
  }

  lemma {:induction false} RowPrefix(before: Sheet, after: Sheet, r: nat, c: nat, columns: nat)
    requires c <= columns
    ensures RowChanges(before, after, r, c) <= RowChanges(before, after, r, columns)
    decreases columns - c
  {
    if c < columns { RowPrefix(before, after, r, c + 1, columns); }
  }

  lemma {:induction false} ScanPrefix(before: Sheet, after: Sheet, r: nat, c: nat, rows: nat, columns: nat)
    requires 1 <= r <= rows && c <= columns
    ensures SheetChanges(before, after, r - 1, columns) + RowChanges(before, after, r, c) <= SheetChanges(before, after, rows, columns)
    decreases rows - r
  {
    RowPrefix(before, after, r, c, columns);
    if r < rows { ScanPrefix(before, after, r + 1, 0, rows, columns); }
  }

  /** The two loops over a sheet. They stop at the change that fills the room. */
  method ScanSheet(before: Sheet, after: Sheet, modifiedBefore: nat) returns (changes: seq<Change>, modified: nat, truncated: bool)
    ensures changes == Cut(AllChanges(before, after), Room(modifiedBefore))
    ensures modified == |changes|
    ensures truncated <==> |AllChanges(before, after)| >= Room(modifiedBefore)
  {
    var rows, columns := Rows(before, after), Columns(before, after);
    var modifiedCells := modifiedBefore;
    changes, modified, truncated := [], 0, false;
    hide Cut;
    for row := 0 to rows
      invariant changes == SheetChanges(before, after, row, columns)
      invariant modified == |changes| < Room(modifiedBefore) && modifiedCells == modifiedBefore + modified
      invariant !truncated
    {
      for column := 0 to columns
        invariant changes == SheetChanges(before, after, row, columns) + RowChanges(before, after, row + 1, column)
        invariant modified == |changes| < Room(modifiedBefore) && modifiedCells == modifiedBefore + modified
        invariant !truncated
      {
        var p := (row + 1, column + 1);
        var changed := ChangedCell(p, CellAt(before, p), CellAt(after, p));
        if changed.None? {
          continue;
        }
        modified := modified + 1;
        modifiedCells := modifiedCells + 1;
        if |changes| < MAX_REPORTED_CHANGES {
          changes := changes + [changed.value];
        }
        assert changes == SheetChanges(before, after, row, columns) + RowChanges(before, after, row + 1, column + 1);
        if modifiedCells >= MAX_REPORTED_CHANGES {
          truncated := true;
          ScanPrefix(before, after, row + 1, column + 1, rows, columns);
          CutIsPrefix(AllChanges(before, after), changes, Room(modifiedBefore));
          return;
        }
      }
    }
    CutIsAll(AllChanges(before, after), Room(modifiedBefore));
  }

  lemma CutIsPrefix(all: seq<Change>, changes: seq<Change>, room: nat)
    requires changes <= all && |changes| == room
    ensures Cut(all, room) == changes
  {
  }

  lemma CutIsAll(all: seq<Change>, room: nat)
    requires |all| < room
    ensures Cut(all, room) == all
  {
  }

  // ---------------------------------------------------------------- the whole workbook

  function Names(a: Workbook, b: Workbook): seq<string> {
    a.names + Only(b.names, a.names)
  }

  function Only(names: seq<string>, taken: seq<string>): seq<string> {
    if names == [] then []
    else
      var n := |names| - 1;
      Only(names[..n], taken) + if names[n] in taken then [] else [names[n]]
  }

  predicate InBoth(a: Workbook, b: Workbook, name: string) {
    name in a.sheets && name in b.sheets
  }

  function Cells(a: Workbook, b: Workbook, name: string): nat
    requires InBoth(a, b, name)
  {
    Rows(a.sheets[name], b.sheets[name]) * Columns(a.sheets[name], b.sheets[name])
  }

  predicate TooLarge(a: Workbook, b: Workbook, name: string, compared: nat)
    requires InBoth(a, b, name)
  {
    Cells(a, b, name) > MAX_COMPARE_CELLS_PER_SHEET || compared + Cells(a, b, name) > MAX_TOTAL_COMPARE_CELLS
  }

  /** Cells compared over the first n names. */
  function Compared(a: Workbook, b: Workbook, names: seq<string>, n: nat): (total: nat)
    requires n <= |names|
    ensures total <= MAX_TOTAL_COMPARE_CELLS
  {
    if n == 0 then 0
    else
      var before := Compared(a, b, names, n - 1);
      if InBoth(a, b, names[n - 1]) && !TooLarge(a, b, names[n - 1], before) then before + Cells(a, b, names[n - 1]) else before
  }

  function Modified(views: seq<SheetView>): nat {
    if views == [] then 0 else Modified(views[..|views| - 1]) + views[|views| - 1].modifiedCells
  }

  function CountStatus(views: seq<SheetView>, status: SheetStatus): nat {
    if views == [] then 0 else CountStatus(views[..|views| - 1], status) + if views[|views| - 1].status == status then 1 else 0
  }

  /** Sheets whose list of changes was cut. */
  predicate WasCut(v: SheetView) {
    v.truncated && v.modifiedCells > 0
  }

  function CountCut(views: seq<SheetView>): nat {
    if views == [] then 0 else CountCut(views[..|views| - 1]) + if WasCut(views[|views| - 1]) then 1 else 0
  }

  /** What the view of one sheet must say, given what came before it. */
  ghost predicate Describes(a: Workbook, b: Workbook, name: string, compared: nat, modifiedBefore: nat, v: SheetView) {
    && v.name == name && v.modifiedCells == |v.changes|
    && if !InBoth(a, b, name) then
         && v.changes == [] && !v.truncated && v.status == (if name !in a.sheets then Added else Removed)
         && v.addedRows == (if name !in a.sheets && name in b.sheets then b.sheets[name].rows else 0)
         && v.removedRows == (if name in a.sheets then a.sheets[name].rows else 0)
       else
         var (s, t) := (a.sheets[name], b.sheets[name]);
         && v.addedRows == Growth(s.rows, t.rows) && v.removedRows == Growth(t.rows, s.rows)
         && (if TooLarge(a, b, name, compared) then v.changes == [] && v.truncated
             else v.changes == Cut(AllChanges(s, t), Room(modifiedBefore)) && (v.truncated <==> |AllChanges(s, t)| >= Room(modifiedBefore)))
         && (v.status.Changed? <==> v.changes != [] || v.truncated || s.rows != t.rows || s.columns != t.columns)
         && (!v.status.Changed? ==> v.status.Unchanged?)
  }

  ghost predicate DescribesAll(a: Workbook, b: Workbook, names: seq<string>, views: seq<SheetView>) {
    |views| <= |names|
    && forall i | 0 <= i < |views| :: Describes(a, b, names[i], Compared(a, b, names, i), Modified(views[..i]), views[i])
  }

  predicate SomeTruncated(views: seq<SheetView>) {
    exists i | 0 <= i < |views| :: views[i].truncated
  }

  lemma AnyTruncated(views: seq<SheetView>, v: SheetView)
    ensures SomeTruncated(views + [v]) <==> SomeTruncated(views) || v.truncated
  {
    if v.truncated { assert (views + [v])[|views|].truncated; }
    if SomeTruncated(views) {
      var i :| 0 <= i < |views| && views[i].truncated;
      assert (views + [v])[i].truncated;
    }
  }

  lemma OneMoreCompared(a: Workbook, b: Workbook, names: seq<string>, n: nat)
    requires n < |names|
    ensures var before := Compared(a, b, names, n);
      Compared(a, b, names, n + 1)
        == if InBoth(a, b, names[n]) && !TooLarge(a, b, names[n], before) then before + Cells(a, b, names[n]) else before
  {
    hide TooLarge, Cells;
  }

  ghost predicate SumsUp(views: seq<SheetView>, summary: Summary) {
    && summary.sheetsAdded == CountStatus(views, Added) && summary.sheetsRemoved == CountStatus(views, Removed)
    && summary.sheetsChanged == CountStatus(views, Changed) && summary.modifiedCells == Modified(views)
    && (summary.truncated <==> SomeTruncated(views))
    && summary.guardReason == FirstReason(views)
  }

  /** Why the first truncated sheet was: it was not compared at all, or its changes filled the room. */
  function FirstReason(views: seq<SheetView>): Option<GuardReason> {
    if views == [] then None
    else
      var (before, v) := (FirstReason(views[..|views| - 1]), views[|views| - 1]);
      if before.Some? || !v.truncated then before else Some(if v.changes == [] then WorkbookTooLarge else TooManyChangedCells)
  }

  predicate Distinct(names: seq<string>) {
    forall i, j | 0 <= i < j < |names| :: names[i] != names[j]
  }

  /** Every sheet of either workbook is visited once, the old one's first. */
  lemma NamesAreAll(a: Workbook, b: Workbook)
    requires Distinct(a.names) && Distinct(b.names)
    ensures a.names <= Names(a, b) && Distinct(Names(a, b)) && forall x :: x in Names(a, b) <==> x in a.names || x in b.names
  {
    OnlyAre(b.names, a.names);
    DistinctParts(a.names, Only(b.names, a.names));
  }

  lemma DistinctParts(a: seq<string>, b: seq<string>)
    requires Distinct(a) && Distinct(b) && forall x | x in a :: x !in b
    ensures Distinct(a + b)
  {
    forall i, j | 0 <= i < j < |a + b| ensures (a + b)[i] != (a + b)[j] {
      if i < |a| <= j {
        assert (a + b)[i] == a[i] && a[i] in a && (a + b)[j] == b[j - |a|] && b[j - |a|] in b;
      }
    }
  }

  lemma {:induction false} OnlyAre(names: seq<string>, taken: seq<string>)
    requires Distinct(names)
    ensures forall x :: x in Only(names, taken) <==> x in names && x !in taken
    ensures Distinct(Only(names, taken))
  {
    if names != [] {
      var n := |names| - 1;
      OnlyAre(names[..n], taken);
      DistinctParts(Only(names[..n], taken), if names[n] in taken then [] else [names[n]]);
    }
  }

  /** One turn of the loop over the names. */
  method CompareSheet(a: Workbook, b: Workbook, name: string, compared: nat, modifiedBefore: nat) returns (v: SheetView, reason: Option<GuardReason>)
    requires name in a.sheets || name in b.sheets
    ensures Describes(a, b, name, compared, modifiedBefore, v)
    ensures reason == if !v.truncated then None else Some(if v.changes == [] then WorkbookTooLarge else TooManyChangedCells)
    ensures name in a.sheets && name in b.sheets ==>
      var (s, t) := (a.sheets[name], b.sheets[name]);
      var cells := (if s.rows < t.rows then t.rows else s.rows) * (if s.columns < t.columns then t.columns else s.columns);
      reason == Some(WorkbookTooLarge) <==> cells > 150_000 || compared + cells > 250_000
  {
    reason := None;
    if name !in a.sheets {
      v := SheetView(name, Added, 0, b.sheets[name].rows, 0, [], false);
      return;
    }
    if name !in b.sheets {
      v := SheetView(name, Removed, 0, 0, a.sheets[name].rows, [], false);
      return;
    }
    var s, t := a.sheets[name], b.sheets[name];
    var changes: seq<Change>, modified: nat, truncated := [], 0, false;
    if TooLarge(a, b, name, compared) {
      truncated := true;
      reason := Some(WorkbookTooLarge);
    } else {
      changes, modified, truncated := ScanSheet(s, t, modifiedBefore);
      reason := if truncated then Some(TooManyChangedCells) else None;
    }
    var structural := s.rows != t.rows || s.columns != t.columns;
    var status := if modified > 0 || structural || truncated then Changed else Unchanged;
    v := SheetView(name, status, modified, Growth(s.rows, t.rows), Growth(t.rows, s.rows), changes, truncated);
  }

  lemma OneMoreView(views: seq<SheetView>, v: SheetView)
    ensures Modified(views + [v]) == Modified(views) + v.modifiedCells
    ensures forall s :: CountStatus(views + [v], s) == CountStatus(views, s) + if v.status == s then 1 else 0
    ensures CountCut(views + [v]) == CountCut(views) + if WasCut(v) then 1 else 0
    ensures FirstReason(views + [v]) ==
      if FirstReason(views).Some? || !v.truncated then FirstReason(views) else Some(if v.changes == [] then WorkbookTooLarge else TooManyChangedCells)
  {
    assert (views + [v])[..|views|] == views;
  }

  lemma NoViewsYet(a: Workbook, b: Workbook, names: seq<string>)
    ensures DescribesAll(a, b, names, []) && Compared(a, b, names, 0) == 0 && SumsUp([], Summary(0, 0, 0, 0, false, None))
  {
  }

  /** compareVersionFiles for two workbooks. */
  method CompareWorkbooks(a: Workbook, b: Workbook) returns (views: seq<SheetView>, summary: Summary)
    requires forall name :: name in Names(a, b) ==> name in a.sheets || name in b.sheets
    ensures |views| == |Names(a, b)| && DescribesAll(a, b, Names(a, b), views) && SumsUp(views, summary)
  {
    hide Describes, TooLarge, Names, Compared, DescribesAll, Cells, Modified, CountStatus, CountCut, SomeTruncated, FirstReason, InBoth;
    var names := Names(a, b);
    NoViewsYet(a, b, names);
    var modifiedCells: nat, sheetsAdded: nat, sheetsRemoved: nat, sheetsChanged: nat, totalCompared: nat := 0, 0, 0, 0, 0;
    var truncated, guardReason := false, None;
    views := [];
    for n := 0 to |names|
      invariant |views| == n && DescribesAll(a, b, names, views)
      invariant totalCompared == Compared(a, b, names, n)
      invariant SumsUp(views, Summary(sheetsAdded, sheetsRemoved, sheetsChanged, modifiedCells, truncated, guardReason))
    {
      var v, reason := CompareSheet(a, b, names[n], totalCompared, modifiedCells);
      OneMoreView(views, v);
      OneMoreDescribed(a, b, names, views, v);
      OneMoreCompared(a, b, names, n);
      if v.status == Added {
        sheetsAdded := sheetsAdded + 1;
      } else if v.status == Removed {
        sheetsRemoved := sheetsRemoved + 1;
      } else if v.status == Changed {
        sheetsChanged := sheetsChanged + 1;
      }
      if InBoth(a, b, names[n]) && !TooLarge(a, b, names[n], totalCompared) {
        totalCompared := totalCompared + Cells(a, b, names[n]);
      }
      modifiedCells := modifiedCells + v.modifiedCells;
      if v.truncated {
        truncated := true;
        guardReason := if guardReason.Some? then guardReason else reason;
      }
      AnyTruncated(views, v);
      views := views + [v];
    }
    summary := Summary(sheetsAdded, sheetsRemoved, sheetsChanged, modifiedCells, truncated, guardReason);
  }

  lemma OneMoreDescribed(a: Workbook, b: Workbook, names: seq<string>, views: seq<SheetView>, v: SheetView)
    requires DescribesAll(a, b, names, views) && |views| < |names|
    requires Describes(a, b, names[|views|], Compared(a, b, names, |views|), Modified(views), v)
    ensures DescribesAll(a, b, names, views + [v])
  {
    hide Describes;
    var more := views + [v];
    forall i | 0 <= i < |more| ensures Describes(a, b, names[i], Compared(a, b, names, i), Modified(more[..i]), more[i]) {
      if i < |views| { assert more[..i] == views[..i]; } else { assert more[..i] == views; }
    }
  }

  // ---------------------------------------------------------------- what a reader may rely on

  /** A sheet not marked truncated comes with the complete patch. A sheet cut at the change limit
      comes with the first changes in reading order, and they are nevertheless complete exactly when
      the last change of the sheet is the one that filled the room. */
  lemma ReportedPatch(a: Workbook, b: Workbook, name: string, compared: nat, modifiedBefore: nat, v: SheetView)
    requires Describes(a, b, name, compared, modifiedBefore, v) && InBoth(a, b, name)
    ensures var (s, t) := (a.sheets[name], b.sheets[name]);
      && (!v.truncated ==> forall p | Inside(s, t, p) ::
            CellAt(Patched(s, v.changes), p) == CellAt(t, p) && CellAt(Patched(t, Reversed(v.changes)), p) == CellAt(s, p))
      && (forall x | x in v.changes :: Inside(s, t, x.at) && CellAt(s, x.at) != CellAt(t, x.at))
      && (WasCut(v) ==> v.changes <= AllChanges(s, t) && |v.changes| == Room(modifiedBefore))
      && (WasCut(v) ==> (v.changes == AllChanges(s, t) <==> |AllChanges(s, t)| == Room(modifiedBefore)))
  {
    var s, t := a.sheets[name], b.sheets[name];
    DiffIsExactPatch(s, t);
    hide AllChanges, Patched, Inside, TooLarge, CellAt, Reversed;
    forall x | x in v.changes ensures x in AllChanges(s, t) {}
  }

  /** The total passes the limit by exactly one for every sheet cut after the first. */
  lemma {:induction false} TotalIsBounded(a: Workbook, b: Workbook, names: seq<string>, views: seq<SheetView>)
    requires |views| <= |names| && DescribesAll(a, b, names, views)
    ensures CountCut(views) == 0 ==> Modified(views) < 5_000
    ensures CountCut(views) > 0 ==> Modified(views) == 5_000 + CountCut(views) - 1
    ensures Compared(a, b, names, |views|) <= 250_000
  {
    hide Describes, DescribesAll, InBoth, TooLarge, Cells;
    if |views| > 0 {
      var n := |views| - 1;
      FewerDescribed(a, b, names, views);
      TotalIsBounded(a, b, names, views[..n]);
      RoomUsed(a, b, names[n], Compared(a, b, names, n), Modified(views[..n]), views[n]);
    }
  }

  lemma FewerDescribed(a: Workbook, b: Workbook, names: seq<string>, views: seq<SheetView>)
    requires DescribesAll(a, b, names, views) && views != []
    ensures var n := |views| - 1;
      |views| <= |names| && DescribesAll(a, b, names, views[..n])
      && Describes(a, b, names[n], Compared(a, b, names, n), Modified(views[..n]), views[n])
  {
    hide Describes, Compared, Modified;
    var n := |views| - 1;
    forall i | 0 <= i < n ensures Describes(a, b, names[i], Compared(a, b, names, i), Modified(views[..n][..i]), views[..n][i]) {
      assert views[..n][..i] == views[..i];
    }
  }

  /** A cut sheet uses its room up; one not cut leaves some. */
  lemma RoomUsed(a: Workbook, b: Workbook, name: string, compared: nat, modifiedBefore: nat, v: SheetView)
    requires Describes(a, b, name, compared, modifiedBefore, v)
    ensures WasCut(v) ==> v.modifiedCells == Room(modifiedBefore)
    ensures !WasCut(v) ==> v.modifiedCells < Room(modifiedBefore)
  {
    hide AllChanges, TooLarge;
  }
}
