/** Logins of one key that overlap. The handler looks at the key's row, checks the password, reads the row
    again and writes it, each in a statement of its own, so other logins come in between. */
module ParallelLogins {
  import opened Wrappers
  import opened LoginThrottle

  type Pid = nat

  /** Where a login stands with this key: to delete the row it found stale when it first looked; past
      the check; to delete the row it found stale when it read it again; to write what it made of it. */
  datatype Stage =
    | CheckStale
    | Passed
    | ReadStale(now: Millis)
    | Recording(held: Option<ThrottleState>, now: Millis)

  /** `log` lists the failures recorded since the row was last cleared; `clock` is the latest time any
      login has looked or read at. */
  datatype World = World(row: Option<ThrottleState>, log: seq<Millis>, logins: map<Pid, Stage>, clock: Millis)

  datatype Statement =
    | Enter(pid: Pid, now: Millis)
    | Drop(pid: Pid)
    | Read(pid: Pid, now: Millis)
    | Write(pid: Pid)
    | Succeed(pid: Pid)
    | Leave(pid: Pid)  // refused by its other key, or broken off

  function Later(a: Millis, b: Millis): Millis {
    if a < b then b else a
  }

  const Quiet := World(None, [], map[], 0)

  function Next(w: World, s: Statement, limit: nat): World {
    match s
    case Enter(pid, now) =>
      if pid in w.logins then w
      else if Blocked(w.row, now) then w.(clock := Later(w.clock, now))
      else w.(clock := Later(w.clock, now),
              logins := w.logins[pid := if w.row.Some? && Stale(w.row.value, now) then CheckStale else Passed])
    case Drop(pid) =>
      if pid !in w.logins then w
      else (match w.logins[pid]
        case CheckStale => w.(row := None, logins := w.logins[pid := Passed])
        case ReadStale(now) => w.(row := None, logins := w.logins[pid := Recording(None, now)])
        case _ => w)
    case Read(pid, now) =>
      if pid !in w.logins || !w.logins[pid].Passed? then w
      else w.(clock := Later(w.clock, now),
              logins := w.logins[pid := if w.row.Some? && Stale(w.row.value, now) then ReadStale(now) else Recording(w.row, now)])
    case Write(pid) =>
      if pid !in w.logins || !w.logins[pid].Recording? then w
      else
        var now := w.logins[pid].now;
        w.(row := Some(Failed(w.logins[pid].held, now, limit)), log := w.log + [now], logins := w.logins - {pid})
    case Succeed(pid) =>
      if pid !in w.logins || !w.logins[pid].Passed? then w
      else w.(row := None, log := [], logins := w.logins - {pid})
    case Leave(pid) => w.(logins := w.logins - {pid})
  }

  function After(ss: seq<Statement>, limit: nat): World {
    if ss == [] then Quiet else Next(After(ss[..|ss| - 1], limit), ss[|ss| - 1], limit)
  }

  // ---------------------------------------------------------------- what a statement stands for

  /** The event of a key's serial run that the statement would be. */
  function EventOf(w: World, s: Statement): Option<KeyEvent> {
    if s.pid !in w.logins then None
    else match (s, w.logins[s.pid])
      case (Drop(_), CheckStale) => Some(Look(w.clock))
      case (Drop(_), ReadStale(_)) => Some(Look(w.clock))
      case (Write(_), Recording(_, now)) => Some(Fail(now))
      case (Succeed(_), Passed) => Some(Clear(w.clock))
      case _ => None
  }

  function EventsOf(ss: seq<Statement>, limit: nat): seq<KeyEvent> {
    if ss == [] then []
    else
      var e := EventOf(After(ss[..|ss| - 1], limit), ss[|ss| - 1]);
      EventsOf(ss[..|ss| - 1], limit) + if e.Some? then [e.value] else []
  }

  /** The count a failure at `now` goes on from, and the window it falls into. */
  function Standing(row: Option<ThrottleState>, now: Millis): (nat, Millis) {
    var current := Loaded(row, now);
    if current.Some? && now <= current.value.windowStartedAt + LOGIN_WINDOW_MS
    then (current.value.failures, current.value.windowStartedAt) else (0, now)
  }

  /** The row has not moved on since the login read it: a failure is written over a row that is not
      blocked and counts what the login counted; what is deleted is stale, or gone. */
  predicate Fits(w: World, s: Statement) {
    s.pid in w.logins ==>
      match (s, w.logins[s.pid])
      case (Drop(_), CheckStale) => Loaded(w.row, w.clock).None?
      case (Drop(_), ReadStale(_)) => Loaded(w.row, w.clock).None?
      case (Write(_), Recording(held, now)) => !Blocked(w.row, now) && Standing(w.row, now) == Standing(held, now)
      case _ => true
  }

  predicate Orderly(ss: seq<Statement>, limit: nat) {
    ss == [] || (Orderly(ss[..|ss| - 1], limit) && Fits(After(ss[..|ss| - 1], limit), ss[|ss| - 1]))
  }

  /** Row and log are where the events, one after another, bring them. */
  predicate IsSerial(ss: seq<Statement>, limit: nat) {
    var w := After(ss, limit);
    KeyRun(w.row, w.log) == Run(EventsOf(ss, limit), limit)
  }

  predicate AlwaysSerial(ss: seq<Statement>, limit: nat) {
    IsSerial(ss, limit) && (ss == [] || AlwaysSerial(ss[..|ss| - 1], limit))
  }

  lemma OneStatement(w: World, s: Statement, limit: nat)
    ensures var (w', e, k) := (Next(w, s, limit), EventOf(w, s), KeyRun(w.row, w.log));
      Fits(w, s) <==> KeyRun(w'.row, w'.log) == if e.Some? then LoginThrottle.Step(k, e.value, limit) else k
  {
  }

  /** Overlapping logins act as if each had come alone, at every point of a run, if and only if no
      statement acts on a row that has moved on since it was read. */
  lemma {:induction false} SerialExactly(ss: seq<Statement>, limit: nat)
    ensures AlwaysSerial(ss, limit) <==> Orderly(ss, limit)
  {
    hide Next, EventOf, Fits, LoginThrottle.Step;
    if ss != [] {
      var before := ss[..|ss| - 1];
      var s := ss[|ss| - 1];
      SerialExactly(before, limit);
      OneStatement(After(before, limit), s, limit);
      var e := EventOf(After(before, limit), s);
      if e.Some? { RunMore(EventsOf(before, limit), e.value, limit); }
      assert EventsOf(before, limit) + [] == EventsOf(before, limit);
      if AlwaysSerial(before, limit) { assert IsSerial(before, limit); }
    }
  }

  /** Then the sliding bound of the serial runs holds. */
  lemma OrderlyIsBounded(ss: seq<Statement>, limit: nat, from: Millis)
    requires limit >= 2 && Orderly(ss, limit) && InOrder(EventsOf(ss, limit))
    ensures SpanCount(After(ss, limit).log, from) <= 2 * limit - 1
  {
    hide Run, After, EventsOf, InOrder;
    SerialExactly(ss, limit);
    SlidingBound(EventsOf(ss, limit), limit, from);
  }

  // ---------------------------------------------------------------- one login at a time

  /** Never more than this many logins of the key were under way. */
  predicate AtMost(ss: seq<Statement>, limit: nat, most: nat) {
    |After(ss, limit).logins| <= most && (ss == [] || AtMost(ss[..|ss| - 1], limit, most))
  }

  /** A login reads the row again after its first look was answered. */
  predicate InTime(w: World, s: Statement) {
    s.Read? ==> w.clock <= s.now
  }

  predicate Timely(ss: seq<Statement>, limit: nat) {
    ss == [] || (Timely(ss[..|ss| - 1], limit) && InTime(After(ss[..|ss| - 1], limit), ss[|ss| - 1]))
  }

  /** What a lone login knows: the row is still the one it looked at. */
  predicate Knows(w: World, stage: Stage) {
    match stage
    case CheckStale => Loaded(w.row, w.clock).None?
    case Passed => !Blocked(w.row, w.clock)
    case ReadStale(now) => now == w.clock && Loaded(w.row, now).None?
    case Recording(held, now) => now == w.clock && held == w.row && !Blocked(w.row, now)
  }

  predicate Alone(w: World, events: seq<KeyEvent>) {
    && (forall p, q | p in w.logins && q in w.logins :: p == q)
    && (forall p | p in w.logins :: Knows(w, w.logins[p]))
    && InOrder(events) && forall e | e in events :: e.now <= w.clock
  }

  lemma AloneKeeps(w: World, s: Statement, events: seq<KeyEvent>, limit: nat)
    requires Alone(w, events) && InTime(w, s) && forall p, q | p in Next(w, s, limit).logins && q in Next(w, s, limit).logins :: p == q
    ensures Fits(w, s)
    ensures var e := EventOf(w, s); Alone(Next(w, s, limit), events + if e.Some? then [e.value] else [])
  {
    forall i | 0 <= i < |events| ensures events[i].now <= w.clock { assert events[i] in events; }
    LaterUnblocked(w.row, w.clock);
    if s.Enter? { LaterUnblocked(w.row, s.now); }
    var w' := Next(w, s, limit);
    if s.Enter? && s.pid !in w.logins && s.pid in w'.logins { FirstIn(w.logins, s.pid, w'.logins); }
    forall p | p in w'.logins ensures Knows(w', w'.logins[p]) {
      assert p == s.pid || p in w.logins;
      if p != s.pid { assert Knows(w, w.logins[p]); }
    }
    var e := EventOf(w, s);
    assert e.Some? ==> e.value.now == w.clock;
  }

  lemma FirstIn(logins: map<Pid, Stage>, pid: Pid, logins': map<Pid, Stage>)
    requires pid !in logins && pid in logins' && logins.Keys <= logins'.Keys
    requires forall p, q | p in logins' && q in logins' :: p == q
    ensures logins == map[]
  {
    assert forall q :: q in logins ==> q in logins';
  }

  lemma LaterUnblocked(row: Option<ThrottleState>, now: Millis)
    ensures forall later | now <= later && !Blocked(row, now) :: !Blocked(row, later)
    ensures forall later | now <= later && Loaded(row, now).None? :: Loaded(row, later).None? && !Blocked(row, later)
  {
  }

  lemma {:induction false} AloneIsOrderly(ss: seq<Statement>, limit: nat)
    requires AtMost(ss, limit, 1) && Timely(ss, limit)
    ensures Orderly(ss, limit) && Alone(After(ss, limit), EventsOf(ss, limit))
  {
    hide Next, EventOf, Fits, Alone, InTime;
    if ss == [] {
      NobodyYet();
    } else {
      AloneIsOrderly(ss[..|ss| - 1], limit);
      OnlyOne(After(ss, limit).logins);
      AloneKeeps(After(ss[..|ss| - 1], limit), ss[|ss| - 1], EventsOf(ss[..|ss| - 1], limit), limit);
    }
  }

  lemma NobodyYet()
    ensures Alone(Quiet, [])
  {
  }

  lemma OnlyOne(logins: map<Pid, Stage>)
    requires |logins| <= 1
    ensures forall p, q | p in logins && q in logins :: p == q
  {
    forall p, q | p in logins && q in logins ensures p == q {
      if p != q {
        assert {p, q} <= logins.Keys;
        assert |{p, q}| == 2;
        SmallerKeys({p, q}, logins.Keys);
        assert false;
      }
    }
  }

  lemma SmallerKeys(a: set<Pid>, b: set<Pid>)
    requires a <= b
    ensures |a| <= |b|
  {
    assert b == a + (b - a);
  }

  // ---------------------------------------------------------------- two at a time

  /** Two logins overlap: both read before either writes. */
  const Overlap: seq<Statement> := [Enter(0, 0), Enter(1, 0), Read(0, 0), Read(1, 0), Write(0), Write(1)]

  function Overlaps(n: nat): seq<Statement> {
    if n == 0 then [] else Overlaps(n - 1) + Overlap
  }

  function Counted(n: nat, limit: nat): Option<ThrottleState> {
    if n == 0 then None else Some(ThrottleState(n, 0, if n >= limit then Some(LOGIN_BLOCK_MS) else None))
  }

  lemma OneMore(ss: seq<Statement>, s: Statement, limit: nat)
    ensures After(ss + [s], limit) == Next(After(ss, limit), s, limit)
    ensures AtMost(ss, limit, 2) && |Next(After(ss, limit), s, limit).logins| <= 2 ==> AtMost(ss + [s], limit, 2)
    ensures Timely(ss, limit) && InTime(After(ss, limit), s) ==> Timely(ss + [s], limit)
  {
    assert (ss + [s])[..|ss + [s]| - 1] == ss;
  }

  /** Each overlap records two failures and counts one. */
  lemma OverlapCountsOne(ss: seq<Statement>, n: nat, limit: nat)
    requires n < limit && After(ss, limit) == World(Counted(n, limit), Times(2 * n, 0), map[], 0) && AtMost(ss, limit, 2) && Timely(ss, limit)
    ensures After(ss + Overlap, limit) == World(Counted(n + 1, limit), Times(2 * n + 2, 0), map[], 0) && AtMost(ss + Overlap, limit, 2)
    ensures Timely(ss + Overlap, limit)
  {
    hide After, AtMost, Timely, Next;
    var row := Counted(n, limit);
    var log := Times(2 * n, 0);
    OverlapSteps(row, log, n, limit);
    var s1, s2, s3 := ss + Overlap[..1], ss + Overlap[..2], ss + Overlap[..3];
    var s4, s5 := ss + Overlap[..4], ss + Overlap[..5];
    assert s1 == ss + [Overlap[0]] && s2 == s1 + [Overlap[1]] && s3 == s2 + [Overlap[2]];
    assert s4 == s3 + [Overlap[3]] && s5 == s4 + [Overlap[4]] && ss + Overlap == s5 + [Overlap[5]];
    OneMore(ss, Overlap[0], limit);
    OneMore(s1, Overlap[1], limit);
    OneMore(s2, Overlap[2], limit);
    OneMore(s3, Overlap[3], limit);
    OneMore(s4, Overlap[4], limit);
    OneMore(s5, Overlap[5], limit);
    assert log + [0] + [0] == Times(2 * n + 2, 0);
  }

  lemma OverlapSteps(row: Option<ThrottleState>, log: seq<Millis>, n: nat, limit: nat)
    requires n < limit && row == Counted(n, limit)
    ensures Next(World(row, log, map[], 0), Enter(0, 0), limit) == World(row, log, map[0 := Passed], 0)
    ensures Next(World(row, log, map[0 := Passed], 0), Enter(1, 0), limit) == World(row, log, map[0 := Passed, 1 := Passed], 0)
    ensures Next(World(row, log, map[0 := Passed, 1 := Passed], 0), Read(0, 0), limit) == World(row, log, map[0 := Recording(row, 0), 1 := Passed], 0)
    ensures Next(World(row, log, map[0 := Recording(row, 0), 1 := Passed], 0), Read(1, 0), limit)
      == World(row, log, map[0 := Recording(row, 0), 1 := Recording(row, 0)], 0)
    ensures Next(World(row, log, map[0 := Recording(row, 0), 1 := Recording(row, 0)], 0), Write(0), limit)
      == World(Counted(n + 1, limit), log + [0], map[1 := Recording(row, 0)], 0)
    ensures Next(World(Counted(n + 1, limit), log + [0], map[1 := Recording(row, 0)], 0), Write(1), limit)
      == World(Counted(n + 1, limit), log + [0] + [0], map[], 0)
  {
    assert Failed(row, 0, limit) == Counted(n + 1, limit).value;
    assert map[0 := Recording(row, 0), 1 := Recording(row, 0)] - {0} == map[1 := Recording(row, 0)];
    assert map[1 := Recording(row, 0)] - {1} == map[];
  }

  lemma {:induction false} OverlapsCountHalf(n: nat, limit: nat)
    requires n <= limit
    ensures After(Overlaps(n), limit) == World(Counted(n, limit), Times(2 * n, 0), map[], 0) && AtMost(Overlaps(n), limit, 2)
    ensures Timely(Overlaps(n), limit)
  {
    hide Next;
    if n == 0 {
      assert Times(0, 0) == [];
    } else {
      OverlapsCountHalf(n - 1, limit);
      OverlapCountsOne(Overlaps(n - 1), n - 1, limit);
    }
  }

  // ---------------------------------------------------------------- main results

  /** Two logins at a time put 2L failures into one moment before the key is blocked. */
  lemma TwoAtATime(limit: nat)
    requires limit >= 2
    ensures AtMost(Overlaps(limit), limit, 2) && Timely(Overlaps(limit), limit)
    ensures SpanCount(After(Overlaps(limit), limit).log, 0) == 2 * limit
  {
    hide After, AtMost;
    OverlapsCountHalf(limit, limit);
    CountAll(Times(2 * limit, 0), 0, LOGIN_WINDOW_MS);
  }

  /** The sliding bound holds of all runs in which at most `most` logins of the key are under way at once
      if and only if that is no more than one. */
  lemma AloneExactly(most: nat, limit: nat)
    requires limit >= 2
    ensures (forall ss, from: Millis | AtMost(ss, limit, most) && Timely(ss, limit) :: SpanCount(After(ss, limit).log, from) <= 2 * limit - 1) <==> most <= 1
  {
    hide After, SpanCount, AtMost, Timely;
    if most <= 1 {
      forall ss, from: Millis | AtMost(ss, limit, most) && Timely(ss, limit) ensures SpanCount(After(ss, limit).log, from) <= 2 * limit - 1 {
        AtMostMore(ss, limit, most, 1);
        AloneIsOrderly(ss, limit);
        OrderlyIsBounded(ss, limit, from);
      }
    } else {
      TwoAtATime(limit);
      AtMostMore(Overlaps(limit), limit, 2, most);
    }
  }

  lemma {:induction false} AtMostMore(ss: seq<Statement>, limit: nat, few: nat, more: nat)
    requires AtMost(ss, limit, few) && few <= more
    ensures AtMost(ss, limit, more)
  {
    hide After;
    if ss != [] { AtMostMore(ss[..|ss| - 1], limit, few, more); }
  }

  // ---------------------------------------------------------------- any number at a time

  /** n logins look, n read, n write: n failures, of which the row counts one. */
  function AllLook(n: nat): seq<Statement> { seq(n, i requires 0 <= i < n => Enter(i, 0)) }

  function AllRead(n: nat): seq<Statement> { seq(n, i requires 0 <= i < n => Read(i, 0)) }

  function AllWrite(n: nat): seq<Statement> { seq(n, i requires 0 <= i < n => Write(i)) }

  function Burst(n: nat): seq<Statement> {
    AllLook(n) + AllRead(n) + AllWrite(n)
  }

  lemma {:induction false} Looked(n: nat, limit: nat)
    ensures var w := After(AllLook(n), limit); w.row == None && w.log == [] && w.clock == 0
    ensures forall p: Pid :: p in After(AllLook(n), limit).logins <==> p < n
    ensures forall p | p in After(AllLook(n), limit).logins :: After(AllLook(n), limit).logins[p] == Passed
  {
    if n == 0 {
      assert AllLook(n) == [];
    } else {
      Looked(n - 1, limit);
      var w := After(AllLook(n - 1), limit);
      assert !Blocked(w.row, 0) && n - 1 !in w.logins;
      assert AllLook(n)[..|AllLook(n)| - 1] == AllLook(n - 1) && AllLook(n)[n - 1] == Enter(n - 1, 0);
      assert After(AllLook(n), limit).logins == w.logins[n - 1 := Passed];
    }
  }

  lemma {:induction false} HaveRead(k: nat, n: nat, limit: nat)
    requires k <= n
    ensures var w := After(AllLook(n) + AllRead(k), limit); w.row == None && w.log == [] && w.clock == 0
    ensures forall p: Pid :: p in After(AllLook(n) + AllRead(k), limit).logins <==> p < n
    ensures var logins := After(AllLook(n) + AllRead(k), limit).logins;
      forall p | p in logins :: logins[p] == if p < k then Recording(None, 0) else Passed
  {
    var ss := AllLook(n) + AllRead(k);
    if k == 0 {
      assert ss == AllLook(n);
      Looked(n, limit);
    } else {
      HaveRead(k - 1, n, limit);
      assert ss[..|ss| - 1] == AllLook(n) + AllRead(k - 1) && ss[|ss| - 1] == Read(k - 1, 0);
    }
  }

  lemma {:induction false} Written(k: nat, n: nat, limit: nat)
    requires k <= n && limit >= 2
    ensures var w := After(AllLook(n) + AllRead(n) + AllWrite(k), limit);
      w.row == (if k == 0 then None else Some(ThrottleState(1, 0, None))) && w.log == Times(k, 0)
    ensures forall p: Pid :: p in After(AllLook(n) + AllRead(n) + AllWrite(k), limit).logins <==> k <= p < n
    ensures var logins := After(AllLook(n) + AllRead(n) + AllWrite(k), limit).logins;
      forall p | p in logins :: logins[p] == Recording(None, 0)
  {
    var ss := AllLook(n) + AllRead(n) + AllWrite(k);
    if k == 0 {
      assert ss == AllLook(n) + AllRead(n);
      HaveRead(n, n, limit);
    } else {
      Written(k - 1, n, limit);
      assert ss[..|ss| - 1] == AllLook(n) + AllRead(n) + AllWrite(k - 1) && ss[|ss| - 1] == Write(k - 1);
      assert Times(k - 1, 0) + [0] == Times(k, 0);
    }
  }

  /** However many: n failures are recorded in one moment, the row counts one, and the key is not blocked. */
  lemma NoBoundAtAll(n: nat, limit: nat)
    requires n >= 1 && limit >= 2
    ensures var w := After(Burst(n), limit);
      SpanCount(w.log, 0) == n && w.row == Some(ThrottleState(1, 0, None)) && w.logins == map[] && !Blocked(w.row, 0)
  {
    hide After;
    Written(n, n, limit);
    CountAll(Times(n, 0), 0, LOGIN_WINDOW_MS);
  }
}
