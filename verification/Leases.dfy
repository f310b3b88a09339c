/** Edit leases: one row per file, renewed by heartbeats, guarding the writes of every other device.

    The worker's handlers send several statements each and may be interleaved between any two of
    them, so the theorems are about runs of single statements; `LeaseTable` holds the rows in place
    and runs whole handlers. */
module Leases {
  import opened Wrappers
  import opened CloudTables

  type DeviceId = nat
  type LeaseId = nat
  type Millis = nat

  const LEASE_TTL_MS: nat := 90_000

  datatype Owner = Owner(user: UserId, device: DeviceId)
  datatype Lease = Lease(owner: Owner, leaseId: LeaseId, heartbeatAt: Millis, expiresAt: Millis)

  /** A session may belong to no registered device. */
  datatype Auth = Auth(user: UserId, device: Option<DeviceId>)

  type LeaseRows = map<FileId, Lease>

  /** The statements that touch the table; `f.None?` prunes every file. */
  datatype Statement =
    | Prune(file: Option<FileId>, now: Millis)
    | Upsert(f: FileId, owner: Owner, leaseId: LeaseId, stamp: Millis, now: Millis)
    | Beat(f: FileId, owner: Owner, leaseId: LeaseId, stamp: Millis, now: Millis)
    | Drop(f: FileId, owner: Owner, leaseId: LeaseId, now: Millis)
    | Replace(f: FileId, owner: Owner, leaseId: LeaseId, stamp: Millis, now: Millis)

  predicate LeaseIdTaken(rows: LeaseRows, f: FileId, leaseId: LeaseId) {
    exists g | g in rows.Keys :: g != f && rows[g].leaseId == leaseId
  }

  /** Whether the row is this owner's, under this id. */
  predicate Holds(rows: LeaseRows, f: FileId, owner: Owner, leaseId: LeaseId) {
    f in rows && rows[f].owner == owner && rows[f].leaseId == leaseId
  }

  function Pruned(rows: LeaseRows, file: Option<FileId>, now: Millis): LeaseRows {
    map f | f in rows && !((file.None? || file.value == f) && rows[f].expiresAt <= now) :: rows[f]
  }

  function Exec(rows: LeaseRows, s: Statement): LeaseRows {
    match s
    case Prune(file, now) => Pruned(rows, file, now)
    // INSERT ... ON CONFLICT(file_id) DO UPDATE ... WHERE the owner is the same; the lease id stays
    case Upsert(f, owner, leaseId, stamp, now) =>
      if f in rows then
        if rows[f].owner == owner then rows[f := rows[f].(heartbeatAt := stamp, expiresAt := now + LEASE_TTL_MS)] else rows
      else if LeaseIdTaken(rows, f, leaseId) then rows
      else rows[f := Lease(owner, leaseId, stamp, now + LEASE_TTL_MS)]
    case Beat(f, owner, leaseId, stamp, now) =>
      if Holds(rows, f, owner, leaseId) then rows[f := rows[f].(heartbeatAt := stamp, expiresAt := now + LEASE_TTL_MS)] else rows
    case Drop(f, owner, leaseId, _) =>
      if Holds(rows, f, owner, leaseId) then rows - {f} else rows
    // one batch: DELETE, then INSERT
    case Replace(f, owner, leaseId, stamp, now) =>
      if LeaseIdTaken(rows, f, leaseId) then rows else rows[f := Lease(owner, leaseId, stamp, now + LEASE_TTL_MS)]
  }

  /** Timestamps of one handler are taken in order. */
  predicate Stamped(s: Statement) {
    s.Prune? || s.Drop? || s.stamp <= s.now
  }

  function Execs(rows: LeaseRows, run: seq<Statement>): LeaseRows {
    if run == [] then rows else Exec(Execs(rows, run[..|run| - 1]), run[|run| - 1])
  }

  // ---------------------------------------------------------------- the invariant

  ghost predicate Sound(rows: LeaseRows) {
    && (forall f | f in rows :: rows[f].heartbeatAt + LEASE_TTL_MS <= rows[f].expiresAt)
    && (forall f, g | f in rows && g in rows && rows[f].leaseId == rows[g].leaseId :: f == g)
  }

  /** Lease ids name one lease each, and a lease lasts at least 90 seconds from its last heartbeat. */
  lemma {:induction false} AlwaysSound(rows: LeaseRows, run: seq<Statement>)
    requires Sound(rows) && forall s | s in run :: Stamped(s)
    ensures Sound(Execs(rows, run))
  {
    if run != [] {
      AlwaysSound(rows, run[..|run| - 1]);
      assert Stamped(run[|run| - 1]);
    }
  }

  // ---------------------------------------------------------------- how a lease can end

  /** The statement, run on these rows, ends or replaces the lease on f: its holder's own release,
      somebody's forced takeover, or a prune once it has expired. */
  predicate Ends(rows: LeaseRows, f: FileId, s: Statement)
    requires f in rows
  {
    match s
    case Prune(file, now) => (file.None? || file.value == f) && rows[f].expiresAt <= now
    case Drop(g, owner, leaseId, _) => g == f && owner == rows[f].owner && leaseId == rows[f].leaseId
    case Replace(g, _, leaseId, _, _) => g == f && !LeaseIdTaken(rows, f, leaseId)
    case _ => false
  }

  lemma OnlyTheseEnd(rows: LeaseRows, f: FileId, s: Statement)
    requires f in rows
    ensures !Ends(rows, f, s) ==> Holds(Exec(rows, s), f, rows[f].owner, rows[f].leaseId)
  {
  }

  /** If, after any interleaving of handlers of any devices, f's lease is no longer that of
      `rows[f]`, then some statement of the run ended it: its own release, a takeover, or a prune at
      a time at least 90 s after the heartbeat it then had. */
  lemma {:induction false} LossHasACause(rows: LeaseRows, run: seq<Statement>, f: FileId) returns (k: nat)
    requires Sound(rows) && f in rows && forall s | s in run :: Stamped(s)
    requires !Holds(Execs(rows, run), f, rows[f].owner, rows[f].leaseId)
    ensures k < |run| && Holds(Execs(rows, run[..k]), f, rows[f].owner, rows[f].leaseId)
    ensures Ends(Execs(rows, run[..k]), f, run[k])
    ensures run[k].Prune? ==> Execs(rows, run[..k])[f].heartbeatAt + LEASE_TTL_MS <= run[k].now
  {
    hide Exec, Ends;
    var n := |run| - 1;
    var before := Execs(rows, run[..n]);
    if Holds(before, f, rows[f].owner, rows[f].leaseId) {
      k := n;
      OnlyTheseEnd(before, f, run[n]);
      AlwaysSound(rows, run[..n]);
      if run[n].Prune? { PruneIsLate(before, f, run[n]); }
    } else {
      k := LossHasACause(rows, run[..n], f);
      assert run[..n][..k] == run[..k];
    }
  }

  lemma PruneIsLate(rows: LeaseRows, f: FileId, s: Statement)
    requires Sound(rows) && f in rows && Ends(rows, f, s) && s.Prune?
    ensures rows[f].heartbeatAt + LEASE_TTL_MS <= s.now
  {
  }

  /** No statement of the run ends the lease then standing on f. */
  predicate Undisturbed(rows: LeaseRows, run: seq<Statement>, f: FileId) {
    forall k | 0 <= k < |run| && f in Execs(rows, run[..k]) :: !Ends(Execs(rows, run[..k]), f, run[k])
  }

  // ---------------------------------------------------------------- the guard

  predicate IsOwner(auth: Auth, owner: Owner) {
    auth.user == owner.user && auth.device == Some(owner.device)
  }

  /** assertFileLeaseCompatible: prune, then look. */
  predicate Passes(rows: LeaseRows, auth: Auth, f: FileId, now: Millis) {
    var left := Pruned(rows, Some(f), now);
    f in left ==> IsOwner(auth, left[f].owner)
  }

  /** While a lease stands that nobody released or took over and that was renewed in time, exactly
      its device passes the guard: not another device of the same user, not a session without a
      device, and no interleaving of other devices' handlers changes that. */
  lemma {:induction false} ExclusiveWhileHeld(rows: LeaseRows, run: seq<Statement>, f: FileId, auth: Auth, now: Millis)
    requires f in rows
    requires Undisturbed(rows, run, f)
    requires f in Execs(rows, run) ==> now < Execs(rows, run)[f].expiresAt
    ensures Holds(Execs(rows, run), f, rows[f].owner, rows[f].leaseId)
    ensures Passes(Execs(rows, run), auth, f, now) <==> IsOwner(auth, rows[f].owner)
  {
    KeptThrough(rows, run, f);
  }

  lemma {:induction false} KeptThrough(rows: LeaseRows, run: seq<Statement>, f: FileId)
    requires f in rows
    requires Undisturbed(rows, run, f)
    ensures Holds(Execs(rows, run), f, rows[f].owner, rows[f].leaseId)
  {
    hide Exec, Ends;
    if run != [] {
      var n := |run| - 1;
      forall k | 0 <= k < n && f in Execs(rows, run[..n][..k]) ensures !Ends(Execs(rows, run[..n][..k]), f, run[..n][k]) {
        assert run[..n][..k] == run[..k];
      }
      KeptThrough(rows, run[..n], f);
      OnlyTheseEnd(Execs(rows, run[..n]), f, run[n]);
    }
  }

  /** Nothing renews a lease but its own device, and nothing shortens it. */
  lemma OnlyOwnRenewal(rows: LeaseRows, f: FileId, s: Statement)
    requires f in rows && !Ends(rows, f, s)
    ensures f in Exec(rows, s) && Exec(rows, s)[f] != rows[f] ==>
      (s.Upsert? || s.Beat?) && s.f == f && s.owner == rows[f].owner && Exec(rows, s)[f].expiresAt == s.now + LEASE_TTL_MS
  {
  }

  // ---------------------------------------------------------------- after a takeover

  predicate NotHeldBy(rows: LeaseRows, f: FileId, owner: Owner) {
    f in rows ==> rows[f].owner != owner
  }

  /** `owner` asks for f's lease anew. */
  predicate AsksAgain(s: Statement, f: FileId, owner: Owner) {
    (s.Upsert? || s.Replace?) && s.f == f && s.owner == owner
  }

  /** From a takeover by another device on, the former holder's heartbeats change nothing, under
      whatever lease id, until it asks for the lease again. */
  lemma {:induction false} FormerHolderIsOut(rows: LeaseRows, run: seq<Statement>, f: FileId, former: Owner, taker: Owner, newId: LeaseId, stamp: Millis, now: Millis)
    requires former != taker && !LeaseIdTaken(rows, f, newId)
    requires forall s | s in run :: !AsksAgain(s, f, former)
    ensures var later := Execs(Exec(rows, Replace(f, taker, newId, stamp, now)), run);
      && NotHeldBy(later, f, former)
      && forall leaseId, t, u {:trigger Beat(f, former, leaseId, t, u)} :: Exec(later, Beat(f, former, leaseId, t, u)) == later
  {
    StaysOut(Exec(rows, Replace(f, taker, newId, stamp, now)), run, f, former);
  }

  lemma {:induction false} StaysOut(rows: LeaseRows, run: seq<Statement>, f: FileId, owner: Owner)
    requires NotHeldBy(rows, f, owner) && forall s | s in run :: !AsksAgain(s, f, owner)
    ensures NotHeldBy(Execs(rows, run), f, owner)
  {
    if run != [] {
      StaysOut(rows, run[..|run| - 1], f, owner);
      assert !AsksAgain(run[|run| - 1], f, owner);
    }
  }

  /** A takeover rotates the id even for the same device: its old heartbeats stop working. */
  lemma TakeoverRotates(rows: LeaseRows, f: FileId, taker: Owner, newId: LeaseId, stamp: Millis, now: Millis)
    requires !LeaseIdTaken(rows, f, newId) && f in rows && rows[f].leaseId != newId
    ensures var later := Exec(rows, Replace(f, taker, newId, stamp, now));
      forall t, u {:trigger Beat(f, rows[f].owner, rows[f].leaseId, t, u)} :: Exec(later, Beat(f, rows[f].owner, rows[f].leaseId, t, u)) == later
  {
  }

  // ---------------------------------------------------------------- the handlers

  datatype LeaseReply =
    | Refused               // no access, or not a manager
    | DeviceRequired
    | FileLocked(holder: Option<Lease>)  // None: the requested id belongs to another file's lease
    | LeaseLost
    | Granted(lease: Option<Lease>)  // what the table then shows: maybe nothing, maybe another's lease
    | Released

  class LeaseTable {
    var rows: LeaseRows

    method PruneExpired(f: FileId, now: Millis)
      modifies this
      ensures rows == Exec(old(rows), Prune(Some(f), now))
    {
      rows := map g | g in rows && !(g == f && rows[g].expiresAt <= now) :: rows[g];
    }

    /** assertFileLeaseCompatible. None means the handler goes on. */
    method AssertCompatible(auth: Auth, f: FileId, now: Millis) returns (locked: Option<Lease>)
      modifies this
      ensures rows == Pruned(old(rows), Some(f), now)
      ensures locked.None? <==> Passes(old(rows), auth, f, now)
      ensures locked.Some? ==> f in old(rows) && locked.value == old(rows)[f] && now < locked.value.expiresAt
    {
      PruneExpired(f, now);
      if f !in rows {
        return None;
      }
      if rows[f].owner.user == auth.user && auth.device.Some? && rows[f].owner.device == auth.device.value {
        return None;
      }
      locked := Some(rows[f]);
    }

    /** handleFileLeaseAcquire: the requested id is used only for a new lease. */
    method Acquire(auth: Auth, f: FileId, editor: bool, requested: Option<LeaseId>, random: LeaseId, t0: Millis, t1: Millis, t2: Millis)
        returns (reply: LeaseReply)
      requires t0 <= t1 <= t2
      modifies this
      ensures auth.device.None? ==> reply == DeviceRequired && rows == old(rows)
      ensures auth.device.Some? && !editor ==> reply == Refused && rows == old(rows)
      ensures auth.device.Some? && editor && !Passes(old(rows), auth, f, t0) ==>
        f in old(rows) && reply == FileLocked(Some(old(rows)[f])) && rows == Pruned(old(rows), Some(f), t0)
      ensures auth.device.Some? && editor && Passes(old(rows), auth, f, t0) ==>
        var mine := Owner(auth.user, auth.device.value);
        rows == Exec(Pruned(old(rows), Some(f), t0), Upsert(f, mine, if requested.Some? then requested.value else random, t1, t2))
      // handled alone, it ends with the caller holding the lease, unless its id belongs to another file
      ensures auth.device.Some? && editor && Passes(old(rows), auth, f, t0) ==>
        var left := Pruned(old(rows), Some(f), t0);
        var leaseId := if f in left then left[f].leaseId else if requested.Some? then requested.value else random;
        if f in left || forall g | g in left && g != f :: left[g].leaseId != leaseId
        then f in rows && reply == Granted(Some(rows[f])) && rows[f] == Lease(Owner(auth.user, auth.device.value), leaseId, t1, t2 + 90_000)
        else reply == FileLocked(None) && rows == left
      ensures auth.device.Some? && editor && Passes(old(rows), auth, f, t0) && (f in old(rows) && t0 < old(rows)[f].expiresAt) ==>
        reply.Granted? && rows[f].leaseId == old(rows)[f].leaseId
    {
      if auth.device.None? {
        return DeviceRequired;
      }
      if !editor {
        return Refused;
      }
      PruneExpired(f, t0);
      var mine := Owner(auth.user, auth.device.value);
      if f in rows && rows[f].owner != mine {
        return FileLocked(Some(rows[f]));
      }
      var leaseId := if f in rows then rows[f].leaseId else if requested.Some? then requested.value else random;
      if f in rows {
        rows := rows[f := rows[f].(heartbeatAt := t1, expiresAt := t2 + LEASE_TTL_MS)];
      } else if LeaseIdTaken(rows, f, leaseId) {
        return FileLocked(None);  // UNIQUE(lease_id)
      } else {
        rows := rows[f := Lease(mine, leaseId, t1, t2 + LEASE_TTL_MS)];
      }
      reply := Granted(Some(rows[f]));
    }

    /** handleFileLeaseHeartbeat */
    method Heartbeat(auth: Auth, f: FileId, editor: bool, leaseId: LeaseId, t0: Millis, t1: Millis, t2: Millis) returns (reply: LeaseReply)
      requires t0 <= t1 <= t2
      modifies this
      ensures auth.device.None? || !editor ==> rows == old(rows) && reply == if auth.device.None? then DeviceRequired else Refused
      ensures auth.device.Some? && editor ==>
        var mine := Owner(auth.user, auth.device.value);
        && rows == Exec(Pruned(old(rows), Some(f), t0), Beat(f, mine, leaseId, t1, t2))
        && (reply == LeaseLost <==> !Holds(Pruned(old(rows), Some(f), t0), f, mine, leaseId))
        && (reply != LeaseLost ==> f in rows && reply == Granted(Some(rows[f])) && rows[f] == Lease(mine, leaseId, t1, t2 + 90_000))
    {
      if auth.device.None? {
        return DeviceRequired;
      }
      if !editor {
        return Refused;
      }
      PruneExpired(f, t0);
      var mine := Owner(auth.user, auth.device.value);
      if !(f in rows && rows[f].owner == mine && rows[f].leaseId == leaseId) {
        return LeaseLost;
      }
      rows := rows[f := rows[f].(heartbeatAt := t1, expiresAt := t2 + LEASE_TTL_MS)];
      reply := Granted(Some(rows[f]));
    }

    /** handleFileLeaseRelease: an answer of ok says nothing; only the holder's own id drops the row. */
    method Release(auth: Auth, f: FileId, leaseId: LeaseId, now: Millis) returns (reply: LeaseReply)
      modifies this
      ensures reply == Released
      ensures rows == if auth.device.None? then old(rows) else Exec(old(rows), Drop(f, Owner(auth.user, auth.device.value), leaseId, now))
    {
      if auth.device.Some? && f in rows && rows[f].owner == Owner(auth.user, auth.device.value) && rows[f].leaseId == leaseId {
        rows := rows - {f};
      }
      reply := Released;
    }

    /** handleFileLeaseForceTakeover: managers only; the id is always new. */
    method ForceTakeover(auth: Auth, f: FileId, manager: bool, random: LeaseId, t0: Millis, t1: Millis, t2: Millis) returns (reply: LeaseReply)
      requires t0 <= t1 <= t2 && !LeaseIdTaken(rows, f, random)
      modifies this
      ensures auth.device.None? || !manager ==> rows == old(rows) && reply == if auth.device.None? then DeviceRequired else Refused
      ensures auth.device.Some? && manager ==>
        var mine := Owner(auth.user, auth.device.value);
        && rows == Exec(Pruned(old(rows), Some(f), t0), Replace(f, mine, random, t1, t2))
        && f in rows && rows[f] == Lease(mine, random, t1, t2 + 90_000) && reply == Granted(Some(rows[f]))
        && forall g | g != f :: g in rows <==> g in old(rows)
    {
      if auth.device.None? {
        return DeviceRequired;
      }
      if !manager {
        return Refused;
      }
      PruneExpired(f, t0);
      var mine := Owner(auth.user, auth.device.value);
      rows := rows - {f};
      rows := rows[f := Lease(mine, random, t1, t2 + LEASE_TTL_MS)];
      reply := Granted(Some(rows[f]));
    }
  }

  // ---------------------------------------------------------------- an acquire among other requests

  predicate OwnedBy(rows: LeaseRows, f: FileId, owner: Owner) {
    f in rows && rows[f].owner == owner
  }

  /** The file is free, and the id too, or the row is the caller's already. */
  predicate CanTake(rows: LeaseRows, f: FileId, mine: Owner, leaseId: LeaseId) {
    if f in rows then rows[f].owner == mine else !LeaseIdTaken(rows, f, leaseId)
  }

  /** The acquiring statement leaves the caller holding the lease exactly when it can be taken. */
  lemma UpsertTakes(rows: LeaseRows, f: FileId, mine: Owner, leaseId: LeaseId, stamp: Millis, now: Millis)
    ensures OwnedBy(Exec(rows, Upsert(f, mine, leaseId, stamp, now)), f, mine) <==> CanTake(rows, f, mine, leaseId)
    ensures !CanTake(rows, f, mine, leaseId) ==> Exec(rows, Upsert(f, mine, leaseId, stamp, now)) == rows
  {
  }

  /** handleFileLeaseAcquire statement by statement. Others' statements run after its prune, after its
      look, after its upsert and after the prune that precedes the answer. */
  datatype Acquiring = Acquiring(f: FileId, mine: Owner, newId: LeaseId, t0: Millis, t1: Millis, t2: Millis, t3: Millis,
                                 looking: seq<Statement>, between: seq<Statement>, pruning: seq<Statement>, reading: seq<Statement>)

  function AtLook(rows: LeaseRows, q: Acquiring): LeaseRows {
    Execs(Pruned(rows, Some(q.f), q.t0), q.looking)
  }

  function AtUpsert(rows: LeaseRows, q: Acquiring): LeaseRows {
    Execs(AtLook(rows, q), q.between)
  }

  /** The id it inserts: that of the row it saw as its own, else the requested or random one. */
  function IdOf(rows: LeaseRows, q: Acquiring): LeaseId {
    if OwnedBy(AtLook(rows, q), q.f, q.mine) then AtLook(rows, q)[q.f].leaseId else q.newId
  }

  function AfterUpsert(rows: LeaseRows, q: Acquiring): LeaseRows {
    Exec(AtUpsert(rows, q), Upsert(q.f, q.mine, IdOf(rows, q), q.t1, q.t2))
  }

  /** What happens to the table between the upsert and the look that becomes the answer. */
  function Rest(q: Acquiring): seq<Statement> {
    q.pruning + [Prune(Some(q.f), q.t3)] + q.reading
  }

  /** It is refused at the look, or the insert violates the uniqueness of the id, or the answer is
      "granted" with whatever row stands by then. */
  function AcquireAnswer(rows: LeaseRows, q: Acquiring): LeaseReply {
    if q.f in AtLook(rows, q) && AtLook(rows, q)[q.f].owner != q.mine then FileLocked(Some(AtLook(rows, q)[q.f]))
    else if q.f !in AtUpsert(rows, q) && LeaseIdTaken(AtUpsert(rows, q), q.f, IdOf(rows, q)) then FileLocked(None)
    else
      var shown := Execs(AfterUpsert(rows, q), Rest(q));
      Granted(if q.f in shown then Some(shown[q.f]) else None)
  }

  /** A granted answer shows the caller's own lease if and only if nobody else's row stood when it was
      taken and nothing ended it before the answer was read. */
  lemma GrantedIsOwn(rows: LeaseRows, q: Acquiring)
    requires AcquireAnswer(rows, q).Granted? && forall s | s in Rest(q) :: !AsksAgain(s, q.f, q.mine)
    ensures var lease := AcquireAnswer(rows, q).lease;
      lease.Some? && lease.value.owner == q.mine <==>
        (q.f in AtUpsert(rows, q) ==> AtUpsert(rows, q)[q.f].owner == q.mine) && Undisturbed(AfterUpsert(rows, q), Rest(q), q.f)
  {
    hide Exec, Ends, Execs, Undisturbed;
    var taken := AfterUpsert(rows, q);
    UpsertTakes(AtUpsert(rows, q), q.f, q.mine, IdOf(rows, q), q.t1, q.t2);
    if OwnedBy(taken, q.f, q.mine) {
      OwnedThrough(taken, Rest(q), q.f);
    } else {
      StaysOut(taken, Rest(q), q.f, q.mine);
    }
  }

  lemma OwnedThrough(rows: LeaseRows, run: seq<Statement>, f: FileId)
    requires f in rows && forall s | s in run :: !AsksAgain(s, f, rows[f].owner)
    ensures OwnedBy(Execs(rows, run), f, rows[f].owner) <==> Undisturbed(rows, run, f)
  {
    if Undisturbed(rows, run, f) {
      KeptThrough(rows, run, f);
    } else {
      var k :| 0 <= k < |run| && f in Execs(rows, run[..k]) && Ends(Execs(rows, run[..k]), f, run[k]);
      hide Undisturbed, Exec;
      Disturbed(rows, run, f, k);
    }
  }

  /** Once its lease is ended, a device that does not ask again holds none. */
  lemma Disturbed(rows: LeaseRows, run: seq<Statement>, f: FileId, k: nat)
    requires f in rows && (forall s | s in run :: !AsksAgain(s, f, rows[f].owner)) && k < |run|
    requires f in Execs(rows, run[..k]) && Ends(Execs(rows, run[..k]), f, run[k])
    ensures !OwnedBy(Execs(rows, run), f, rows[f].owner)
  {
    var owner := rows[f].owner;
    var before := Execs(rows, run[..k]);
    assert run[k] in run;
    EndIsOut(before, f, run[k], owner);
    hide Exec, Ends;
    assert run[..k + 1][..k] == run[..k];
    assert NotHeldBy(Execs(rows, run[..k + 1]), f, owner);
    assert run == run[..k + 1] + run[k + 1..];
    ExecsAppend(rows, run[..k + 1], run[k + 1..]);
    forall s | s in run[k + 1..] ensures !AsksAgain(s, f, owner) { assert s in run; }
    StaysOut(Execs(rows, run[..k + 1]), run[k + 1..], f, owner);
  }

  lemma EndIsOut(rows: LeaseRows, f: FileId, s: Statement, owner: Owner)
    requires f in rows && Ends(rows, f, s) && !AsksAgain(s, f, owner)
    ensures NotHeldBy(Exec(rows, s), f, owner)
  {
  }

  lemma {:induction false} ExecsAppend(rows: LeaseRows, a: seq<Statement>, b: seq<Statement>)
    ensures Execs(rows, a + b) == Execs(Execs(rows, a), b)
  {
    hide Exec;
    if b == [] {
      assert a + b == a;
    } else {
      assert (a + b)[..|a + b| - 1] == a + b[..|b| - 1];
      ExecsAppend(rows, a, b[..|b| - 1]);
    }
  }

  /** The input: a request that saw no lease is overtaken by another's upsert. It is answered
      "granted", and the answer shows the other's lease. */
  lemma OvertakenAcquire(f: FileId, mine: Owner, other: Owner, a: LeaseId, b: LeaseId, t: Millis)
    requires mine != other
    ensures var q := Acquiring(f, mine, a, t, t, t, t, [], [Upsert(f, other, b, t, t)], [], []);
      AcquireAnswer(map[], q) == Granted(Some(Lease(other, b, t, t + LEASE_TTL_MS)))
  {
    var q := Acquiring(f, mine, a, t, t, t, t, [], [Upsert(f, other, b, t, t)], [], []);
    var taken := map[f := Lease(other, b, t, t + LEASE_TTL_MS)];
    assert AtLook(map[], q) == map[];
    assert q.between[..0] == [] && Execs(map[], q.between) == Exec(map[], q.between[0]);
    assert AtUpsert(map[], q) == taken && AfterUpsert(map[], q) == taken;
    assert Rest(q) == [Prune(Some(f), t)] && Rest(q)[..0] == [];
    assert Execs(taken, Rest(q)) == Exec(taken, Prune(Some(f), t)) == taken;
  }
}
