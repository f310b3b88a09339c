/** The engine's dispatcher: at most three jobs, one per file, and every tenth pick takes the oldest
    row so that urgent work cannot starve an old one. */
module Dispatching {
  import opened Wrappers
  import opened CloudTables
  import opened LocalQueue
  import opened LocalDatabase

  const MAX_JOBS := 3
  const OLDEST_EVERY := 10

  /** One call of nextReadyPending: what it saw, the jobs then running, and what it took. */
  datatype Round = Round(rows: map<RowId, Row>, excluded: set<FileId>, now: nat, counter: nat, pick: Option<RowId>, jobs: map<RowId, FileId>)

  ghost predicate Picked(round: Round) {
    && SlotsRight(round.jobs, round.excluded) && FilesRight(round.jobs, round.rows)
    && PicksNext(round.rows, round.excluded, round.counter % OLDEST_EVERY == 0, round.now, round.pick)
  }

  /** The counter goes up by one each round and every pick was a right one. */
  ghost predicate Rounds(log: seq<Round>) {
    forall i | 0 <= i < |log| :: Picked(log[i]) && log[i].counter == i + 1
  }

  /** At most three jobs, no two on one file, and the busy files are exactly theirs. */
  ghost predicate SlotsRight(jobs: map<RowId, FileId>, files: set<FileId>) {
    files == jobs.Values && |jobs| <= MAX_JOBS && OnePerFile(jobs)
  }

  ghost predicate OnePerFile(jobs: map<RowId, FileId>) {
    forall r, s | r in jobs && s in jobs && r != s :: jobs[r] != jobs[s]
  }

  ghost predicate FilesRight(jobs: map<RowId, FileId>, rows: map<RowId, Row>) {
    forall r | r in jobs && r in rows :: rows[r].fileId == jobs[r]
  }

  /** Running jobs stay, each new one was ready and is now marked, every other row is as it was. */
  ghost predicate Launched(rows: map<RowId, Row>, rows': map<RowId, Row>, jobs: map<RowId, FileId>, jobs': map<RowId, FileId>, now: nat) {
    && rows'.Keys == rows.Keys
    && (forall r | r in jobs :: r in jobs' && jobs'[r] == jobs[r])
    && (forall r | r in jobs' && r !in jobs :: r in rows && Ready(rows[r], now) && jobs'[r] == rows[r].fileId && rows'[r] == Marked(rows[r]))
    && (forall r | r in rows && (r in jobs || r !in jobs') :: rows'[r] == rows[r])
  }

  function Marked(row: Row): Row {
    row.(status := Uploading, attempts := row.attempts + 1)
  }

  lemma LaunchedTrans(rows0: map<RowId, Row>, rows1: map<RowId, Row>, rows2: map<RowId, Row>,
                      jobs0: map<RowId, FileId>, jobs1: map<RowId, FileId>, jobs2: map<RowId, FileId>, now: nat)
    requires Launched(rows0, rows1, jobs0, jobs1, now) && Launched(rows1, rows2, jobs1, jobs2, now)
    ensures Launched(rows0, rows2, jobs0, jobs2, now)
  {
  }

  lemma SlotTaken(jobs: map<RowId, FileId>, files: set<FileId>, r: RowId, f: FileId)
    requires SlotsRight(jobs, files) && |jobs| < MAX_JOBS && r !in jobs && f !in files
    ensures SlotsRight(jobs[r := f], files + {f}) && |jobs[r := f]| == |jobs| + 1
  {
    hide OnePerFile;
    OneMoreJob(jobs, r, f);
    OneMoreValue(jobs, r, f);
    StillOnePerFile(jobs, r, f);
  }

  lemma OneMoreJob(jobs: map<RowId, FileId>, r: RowId, f: FileId)
    requires r !in jobs
    ensures |jobs[r := f]| == |jobs| + 1
  {
    assert jobs[r := f].Keys == jobs.Keys + {r};
  }

  lemma StillOnePerFile(jobs: map<RowId, FileId>, r: RowId, f: FileId)
    requires OnePerFile(jobs) && f !in jobs.Values
    ensures OnePerFile(jobs[r := f])
  {
    assert forall q | q in jobs :: jobs[q] in jobs.Values;
  }

  lemma OneMoreValue(jobs: map<RowId, FileId>, r: RowId, f: FileId)
    requires r !in jobs
    ensures jobs[r := f].Values == jobs.Values + {f}
  {
    var jobs' := jobs[r := f];
    forall g | g in jobs.Values ensures g in jobs'.Values {
      var q :| q in jobs && jobs[q] == g;
      assert jobs'[q] == g;
    }
    assert jobs'[r] == f;
  }

  /** A row of an idle file has no job. */
  lemma IdleRow(jobs: map<RowId, FileId>, files: set<FileId>, rows: map<RowId, Row>, r: RowId)
    requires SlotsRight(jobs, files) && FilesRight(jobs, rows) && r in rows && rows[r].fileId !in files
    ensures r !in jobs
  {
    assert forall q | q in jobs :: jobs[q] in jobs.Values;
  }

  lemma MarkedIsLaunched(l: Local, jobs: map<RowId, FileId>, r: RowId, now: nat)
    requires r in l.rows && r !in jobs && Ready(l.rows[r], now) && FilesRight(jobs, l.rows)
    ensures var rows' := MarkUploading(l, r).rows; var jobs' := jobs[r := l.rows[r].fileId];
      Launched(l.rows, rows', jobs, jobs', now) && FilesRight(jobs', rows')
  {
  }

  lemma LaunchedNone(rows: map<RowId, Row>, jobs: map<RowId, FileId>, now: nat)
    ensures Launched(rows, rows, jobs, jobs, now)
  {
  }

  lemma SlotsBounded(jobs: map<RowId, FileId>, files: set<FileId>)
    requires SlotsRight(jobs, files)
    ensures |jobs| <= MAX_JOBS
  {
  }

  lemma SlotFreed(jobs: map<RowId, FileId>, files: set<FileId>, r: RowId)
    requires SlotsRight(jobs, files) && r in jobs
    ensures SlotsRight(jobs - {r}, files - {jobs[r]})
  {
    assert jobs.Keys == (jobs - {r}).Keys + {r};
  }

  class Dispatcher {
    const db: LocalDb
    var activeFiles: set<FileId>
    var activeJobs: map<RowId, FileId>
    var dispatchCounter: nat
    var stopped: bool
    ghost var log: seq<Round>

    ghost predicate Valid()
      reads this, db
    {
      SlotsRight(activeJobs, activeFiles) && FilesRight(activeJobs, db.rows) && |log| == dispatchCounter && Rounds(log)
    }

    constructor (db: LocalDb)
      ensures Valid() && this.db == db && activeJobs == map[] && !stopped && log == []
    {
      this.db := db;
      activeFiles, activeJobs, dispatchCounter, stopped, log := {}, map[], 0, false, [];
    }

    /** One turn of the loop: the next ready row of an idle file, if any, becomes a job. */
    method DispatchNext(now: nat) returns (found: bool)
      requires Valid() && |activeJobs| < MAX_JOBS
      modifies this`activeFiles, this`activeJobs, this`dispatchCounter, this`log, db
      ensures Valid() && old(log) <= log
      ensures Launched(old(db.rows), db.rows, old(activeJobs), activeJobs, now)
      ensures found ==> |activeJobs| == old(|activeJobs|) + 1
      ensures !found ==> activeJobs == old(activeJobs) && forall r | r in db.rows.Keys :: !Eligible(db.rows, activeFiles, now, r)
    {
      hide SlotsRight, FilesRight, Launched, MarkUploading;
      LaunchedNone(db.rows, activeJobs, now);
      dispatchCounter := dispatchCounter + 1;
      var pending := db.NextReadyPending(activeFiles, dispatchCounter % OLDEST_EVERY == 0, now);
      log := log + [Round(db.rows, activeFiles, now, dispatchCounter, pending, activeJobs)];
      assert Picked(log[|log| - 1]);
      if pending.None? {
        return false;
      }
      var r := pending.value;
      var f := db.rows[r].fileId;
      IdleRow(activeJobs, activeFiles, db.rows, r);
      SlotTaken(activeJobs, activeFiles, r, f);
      MarkedIsLaunched(Local(db.files, db.rows), activeJobs, r, now);
      activeFiles := activeFiles + {f};
      db.MarkUploading(r);
      activeJobs := activeJobs[r := f];
      found := true;
    }

    /** processOne: fill the free slots, until three jobs run or no row of an idle file is ready. */
    method ProcessOne(now: nat)
      requires Valid()
      modifies this, db
      ensures Valid() && stopped == old(stopped) && old(log) <= log
      ensures Launched(old(db.rows), db.rows, old(activeJobs), activeJobs, now)
      ensures stopped ==> activeJobs == old(activeJobs) && log == old(log)
      ensures !stopped ==>
        |activeJobs| == 3 || forall r | r in db.rows.Keys :: !Eligible(db.rows, activeFiles, now, r)
    {
      if stopped {
        return;
      }
      hide SlotsRight, FilesRight, Rounds, Eligible, Launched;
      LaunchedNone(db.rows, activeJobs, now);
      assert |activeJobs| <= MAX_JOBS by { SlotsBounded(activeJobs, activeFiles); }
      while |activeJobs| < MAX_JOBS
        invariant Valid() && !stopped && old(log) <= log
        invariant |activeJobs| <= MAX_JOBS
        invariant Launched(old(db.rows), db.rows, old(activeJobs), activeJobs, now)
        decreases MAX_JOBS - |activeJobs|
      {
        ghost var rows, jobs := db.rows, activeJobs;
        var found := DispatchNext(now);
        LaunchedTrans(old(db.rows), rows, db.rows, old(activeJobs), jobs, activeJobs, now);
        if !found {
          break;
        }
      }
    }

    /** The job's `finally`: its row and its file are free again. */
    method Finish(r: RowId)
      requires Valid() && r in activeJobs
      modifies this
      ensures Valid() && activeJobs == old(activeJobs) - {r} && activeFiles == old(activeFiles) - {old(activeJobs)[r]}
      ensures log == old(log) && stopped == old(stopped)
    {
      var f := activeJobs[r];
      SlotFreed(activeJobs, activeFiles, r);
      activeJobs := activeJobs - {r};
      activeFiles := activeFiles - {f};
    }
  }

  // ---------------------------------------------------------------- bounded waiting

  /** r could have been taken in every round of the span, and did not change its place in time. */
  ghost predicate Waits(log: seq<Round>, from: nat, to: nat, r: RowId, created: nat)
    requires from <= to <= |log|
  {
    forall i | from <= i < to ::
      Eligible(log[i].rows, log[i].excluded, log[i].now, r) && log[i].rows[r].created == created && log[i].pick != Some(r)
  }

  /** The round took another row that is at least as old. */
  predicate TookOlder(round: Round, r: RowId, created: nat) {
    round.pick.Some? && round.pick.value != r && round.pick.value in round.rows && round.rows[round.pick.value].created <= created
  }

  function CountOlder(log: seq<Round>, from: nat, to: nat, r: RowId, created: nat): nat
    requires from <= to <= |log|
  {
    if from == to then 0 else CountOlder(log, from, to - 1, r, created) + if TookOlder(log[to - 1], r, created) then 1 else 0
  }

  lemma TenthTakesOldest(round: Round, r: RowId)
    requires Picked(round) && round.counter % OLDEST_EVERY == 0
    requires Eligible(round.rows, round.excluded, round.now, r) && round.pick != Some(r)
    ensures TookOlder(round, r, round.rows[r].created)
  {
  }

  lemma {:induction false} WaitingCosts(log: seq<Round>, from: nat, to: nat, r: RowId, created: nat)
    requires from <= to <= |log| && Rounds(log) && Waits(log, from, to, r, created)
    ensures CountOlder(log, from, to, r, created) >= to / OLDEST_EVERY - from / OLDEST_EVERY
  {
    hide SlotsRight, FilesRight, PicksNext, Eligible, TookOlder;
    if from < to {
      WaitingCosts(log, from, to - 1, r, created);
      if to % OLDEST_EVERY == 0 {
        assert Picked(log[to - 1]);
        TenthTakesOldest(log[to - 1], r);
      }
    }
  }

  /** However much urgent work arrives: of any span of rounds that passes a ready row over, at least
      every tenth went to a row at least as old. */
  lemma WaitingMeansOlderWork(log: seq<Round>, from: nat, to: nat, r: RowId, created: nat)
    requires from <= to <= |log| && Rounds(log) && Waits(log, from, to, r, created)
    ensures CountOlder(log, from, to, r, created) >= (to - from) / 10
  {
    WaitingCosts(log, from, to, r, created);
  }

  ghost predicate TakenBefore(log: seq<Round>, from: nat, i: nat, r: RowId)
    requires from <= i <= |log|
  {
    exists j | from <= j < i :: log[j].pick == Some(r)
  }

  /** r is queued and ready, the only row of its file, and a job still on that file is that of a row
      marked as uploading. */
  ghost predicate Queued(round: Round, r: RowId, created: nat) {
    && r in round.rows && Ready(round.rows[r], round.now) && round.rows[r].created == created
    && (forall q | q in round.rows.Keys && round.rows[q].fileId == round.rows[r].fileId :: q == r)
    && (forall q | q in round.jobs && round.jobs[q] == round.rows[r].fileId :: q in round.rows && round.rows[q].status == Uploading)
  }

  /** So nobody works on its file, and it can be taken. */
  lemma QueuedIsEligible(round: Round, r: RowId, created: nat)
    requires Picked(round) && Queued(round, r, created)
    ensures Eligible(round.rows, round.excluded, round.now, r)
  {
    hide PicksNext;
    var f := round.rows[r].fileId;
    assert forall q | q in round.jobs :: round.jobs[q] != f;
  }

  /** The rows at least as old that were taken before r. */
  ghost predicate Competitors(log: seq<Round>, from: nat, to: nat, r: RowId, created: nat, older: set<RowId>)
    requires from <= to <= |log|
  {
    forall i | from <= i < to && TookOlder(log[i], r, created) && !TakenBefore(log, from, i, r) :: log[i].pick.value in older
  }

  ghost predicate EachOnce(log: seq<Round>, from: nat, to: nat, r: RowId, created: nat)
    requires from <= to <= |log|
  {
    forall i, j | from <= i < j < to && TookOlder(log[i], r, created) && TookOlder(log[j], r, created) && !TakenBefore(log, from, j, r) ::
      log[i].pick != log[j].pick
  }

  /** With k such rows, each dispatched at most once meanwhile, a row that stays queued until it is
      taken is dispatched within 10 * (k + 1) rounds. */
  lemma BoundedWaiting(log: seq<Round>, from: nat, r: RowId, created: nat, older: set<RowId>)
    requires Rounds(log) && from + 10 * (|older| + 1) <= |log|
    requires var to := from + 10 * (|older| + 1);
      && Competitors(log, from, to, r, created, older) && EachOnce(log, from, to, r, created)
      && forall i | from <= i < to && !TakenBefore(log, from, i, r) :: Queued(log[i], r, created)
    ensures exists i :: from <= i < from + 10 * (|older| + 1) && log[i].pick == Some(r)
  {
    hide Eligible, Picked, Queued, TookOlder;
    var to := from + OLDEST_EVERY * (|older| + 1);
    if forall i | from <= i < to :: log[i].pick != Some(r) {
      forall i | from <= i < to ensures Eligible(log[i].rows, log[i].excluded, log[i].now, r) && r in log[i].rows && log[i].rows[r].created == created {
        assert !TakenBefore(log, from, i, r) && Picked(log[i]);
        QueuedIsEligible(log[i], r, created);
        CreatedThen(log[i], r, created);
      }
      WaitingMeansOlderWork(log, from, to, r, created);
      var taken := OlderTaken(log, from, to, r, created, older);
      SmallerSet(taken, older);
      assert false;
    }
  }

  lemma CreatedThen(round: Round, r: RowId, created: nat)
    requires Queued(round, r, created)
    ensures r in round.rows && round.rows[r].created == created
  {
  }

  lemma {:induction false} OlderTaken(log: seq<Round>, from: nat, to: nat, r: RowId, created: nat, older: set<RowId>) returns (taken: set<RowId>)
    requires from <= to <= |log| && Competitors(log, from, to, r, created, older) && EachOnce(log, from, to, r, created)
    requires forall i | from <= i < to :: log[i].pick != Some(r)
    ensures taken <= older && |taken| == CountOlder(log, from, to, r, created)
    ensures forall p | p in taken :: exists i :: from <= i < to && TookOlder(log[i], r, created) && log[i].pick == Some(p)
  {
    if from == to { return {}; }
    taken := OlderTaken(log, from, to - 1, r, created, older);
    if TookOlder(log[to - 1], r, created) {
      assert !TakenBefore(log, from, to - 1, r);
      taken := taken + {log[to - 1].pick.value};
    }
  }
}
