/** The login throttle: a fixed window per user and per address, and the sliding bound it implies. */
module LoginThrottle {
  import opened Wrappers

  type Millis = nat

  const LOGIN_WINDOW_MS: nat := 15 * 60 * 1000
  const LOGIN_BLOCK_MS: nat := 15 * 60 * 1000
  const LOGIN_USER_FAILURE_LIMIT: nat := 6
  const LOGIN_IP_FAILURE_LIMIT: nat := 30

  datatype ThrottleState = ThrottleState(failures: nat, windowStartedAt: Millis, blockedUntil: Option<Millis>)

  datatype ThrottleKey = UserKey(name: nat) | IpKey(address: nat)

  function LimitOf(key: ThrottleKey): nat {
    if key.UserKey? then LOGIN_USER_FAILURE_LIMIT else LOGIN_IP_FAILURE_LIMIT
  }

  // ---------------------------------------------------------------- one key

  predicate Stale(s: ThrottleState, now: Millis) {
    now > s.windowStartedAt + LOGIN_WINDOW_MS && (s.blockedUntil.None? || s.blockedUntil.value <= now)
  }

  /** loadLoginThrottle: a stale row is deleted. */
  function Loaded(state: Option<ThrottleState>, now: Millis): Option<ThrottleState> {
    if state.Some? && Stale(state.value, now) then None else state
  }

  predicate Blocked(state: Option<ThrottleState>, now: Millis) {
    Loaded(state, now).Some? && Loaded(state, now).value.blockedUntil.Some? && Loaded(state, now).value.blockedUntil.value > now
  }

  /** One failure written to one key. */
  function Failed(state: Option<ThrottleState>, now: Millis, limit: nat): ThrottleState {
    var current := Loaded(state, now);
    var same := current.Some? && now <= current.value.windowStartedAt + LOGIN_WINDOW_MS;
    var failures := (if same then current.value.failures else 0) + 1;
    ThrottleState(failures, if same then current.value.windowStartedAt else now,
                  if failures >= limit then Some(now + LOGIN_BLOCK_MS) else None)
  }

  /** What logins do to one key: look at it, record a failure unless it is blocked, clear it. */
  datatype KeyEvent = Look(now: Millis) | Fail(now: Millis) | Clear(now: Millis)

  /** A key's row together with the failures recorded since it was last cleared. */
  datatype KeyRun = KeyRun(state: Option<ThrottleState>, log: seq<Millis>)

  function Step(k: KeyRun, e: KeyEvent, limit: nat): KeyRun {
    match e
    case Look(now) => k.(state := Loaded(k.state, now))
    case Fail(now) => if Blocked(k.state, now) then k.(state := Loaded(k.state, now)) else KeyRun(Some(Failed(k.state, now, limit)), k.log + [now])
    case Clear(_) => KeyRun(None, [])
  }

  function Run(events: seq<KeyEvent>, limit: nat): KeyRun {
    if events == [] then KeyRun(None, []) else Step(Run(events[..|events| - 1], limit), events[|events| - 1], limit)
  }

  predicate InOrder(events: seq<KeyEvent>) {
    forall i, j | 0 <= i < j < |events| :: events[i].now <= events[j].now
  }

  // ---------------------------------------------------------------- counting

  /** Failures within the closed span [from, to]. */
  function Count(log: seq<Millis>, from: int, to: int): nat {
    if log == [] then 0 else Count(log[..|log| - 1], from, to) + if from <= log[|log| - 1] <= to then 1 else 0
  }

  /** Failures within the fifteen minutes from `from` on, both ends included. */
  function SpanCount(log: seq<Millis>, from: Millis): nat {
    Count(log, from, from + LOGIN_WINDOW_MS)
  }

  lemma CountAppend(log: seq<Millis>, t: Millis, from: int, to: int)
    ensures Count(log + [t], from, to) == Count(log, from, to) + if from <= t <= to then 1 else 0
  {
    assert (log + [t])[..|log|] == log;
  }

  lemma {:induction false} CountNarrower(log: seq<Millis>, from: int, to: int, from': int, to': int)
    requires from <= from' && to' <= to
    ensures Count(log, from', to') <= Count(log, from, to) <= |log|
  {
    if log != [] { CountNarrower(log[..|log| - 1], from, to, from', to'); }
  }

  lemma {:induction false} CountSplit(a: seq<Millis>, b: seq<Millis>, from: int, to: int)
    ensures Count(a + b, from, to) == Count(a, from, to) + Count(b, from, to)
  {
    if b == [] {
      assert a + b == a;
    } else {
      assert (a + b)[..|a + b| - 1] == a + b[..|b| - 1];
      CountSplit(a, b[..|b| - 1], from, to);
    }
  }

  lemma {:induction false} CountNone(log: seq<Millis>, from: int, to: int)
    requires forall t | t in log :: !(from <= t <= to)
    ensures Count(log, from, to) == 0
  {
    if log != [] {
      var shorter := log[..|log| - 1];
      assert log[|log| - 1] in log;
      forall t | t in shorter ensures !(from <= t <= to) { assert t in log; }
      CountNone(shorter, from, to);
    }
  }

  /** If the first entry lies before the span, it does not count. */
  lemma CountSkipsFirst(log: seq<Millis>, from: int, to: int)
    requires log != [] && log[0] < from
    ensures Count(log, from, to) <= |log| - 1
  {
    assert log == log[..1] + log[1..];
    CountSplit(log[..1], log[1..], from, to);
    CountNone(log[..1], from, to);
    CountNarrower(log[1..], from, to, from, to);
  }

  // ---------------------------------------------------------------- the invariant of one key

  /** The open window: its failures close the log, everything before is older than the window, and
      few of those are within 15 minutes of its start. */
  ghost predicate WindowOpen(s: ThrottleState, log: seq<Millis>, now: Millis, limit: nat) {
    && 1 <= s.failures <= |log| && s.windowStartedAt <= now
    && var (before, inside) := (log[..|log| - s.failures], log[|log| - s.failures..]);
       && inside[0] == s.windowStartedAt
       && (forall t | t in inside :: s.windowStartedAt <= t <= s.windowStartedAt + LOGIN_WINDOW_MS && t <= now)
       && (forall t | t in before :: t < s.windowStartedAt)
       && Count(before, s.windowStartedAt - LOGIN_WINDOW_MS, now) <= limit - 1
       && (s.failures < limit ==> s.blockedUntil.None?)
       && (s.failures >= limit ==> s.blockedUntil == Some(log[|log| - 1] + LOGIN_BLOCK_MS))
       && (s.failures > limit ==> Overrun(s, inside, limit))
  }

  /** The one way past the limit inside a window: all failures of the window in its first
      millisecond, and one more in its last, just as the block ends. */
  ghost predicate Overrun(s: ThrottleState, inside: seq<Millis>, limit: nat) {
    && s.failures == limit + 1 && |inside| == limit + 1
    && (forall i | 0 <= i < limit :: inside[i] == s.windowStartedAt)
    && inside[limit] == s.windowStartedAt + LOGIN_WINDOW_MS
  }

  ghost predicate WindowClosed(log: seq<Millis>, now: Millis, limit: nat) {
    && (forall t | t in log :: t < now)
    && Count(log, now - LOGIN_WINDOW_MS, now) <= limit - 1
  }

  ghost predicate KeyInv(k: KeyRun, now: Millis, limit: nat) {
    && (forall i, j | 0 <= i < j < |k.log| :: k.log[i] <= k.log[j])
    && (forall t | t in k.log :: t <= now)
    && if k.state.None? then WindowClosed(k.log, now, limit) else WindowOpen(k.state.value, k.log, now, limit)
  }

  /** No closed span of fifteen minutes that ends at a recorded failure holds 2L failures. */
  ghost predicate SpansBounded(log: seq<Millis>, limit: nat) {
    forall n | 0 <= n < |log| :: RecentAt(log, n) <= 2 * limit - 1
  }

  function RecentAt(log: seq<Millis>, n: nat): nat
    requires n < |log|
  {
    Count(log[..n + 1], log[n] - LOGIN_WINDOW_MS, log[n])
  }

  /** Time passing keeps the invariant. */
  lemma LaterKeeps(k: KeyRun, now: Millis, later: Millis, limit: nat)
    requires KeyInv(k, now, limit) && now <= later
    ensures KeyInv(k, later, limit)
  {
    if k.state.Some? {
      var s := k.state.value;
      var before := k.log[..|k.log| - s.failures];
      CountUpTo(before, s.windowStartedAt - LOGIN_WINDOW_MS, now, later);
    } else if k.log != [] {
      CountUpTo(k.log, later - LOGIN_WINDOW_MS, now, later);
      CountNarrower(k.log, now - LOGIN_WINDOW_MS, now, later - LOGIN_WINDOW_MS, now);
    }
  }

  lemma {:induction false} CountUpTo(log: seq<Millis>, from: int, to: int, to': int)
    requires to <= to' && forall t | t in log :: t <= to
    ensures Count(log, from, to') == Count(log, from, to)
  {
    if log != [] {
      var shorter := log[..|log| - 1];
      assert log[|log| - 1] in log;
      forall t | t in shorter ensures t <= to { assert t in log; }
      CountUpTo(shorter, from, to, to');
    }
  }

  /** Once the window is over, at most L - 1 of its failures, and none from before it, are recent. */
  lemma OverIsClosed(s: ThrottleState, log: seq<Millis>, now: Millis, limit: nat)
    requires limit >= 2 && WindowOpen(s, log, now, limit) && now > s.windowStartedAt + LOGIN_WINDOW_MS
    ensures WindowClosed(log, now, limit)
  {
    hide Count;
    var before, inside := log[..|log| - s.failures], log[|log| - s.failures..];
    var from := now - LOGIN_WINDOW_MS;
    assert log == before + inside;
    CountSplit(before, inside, from, now);
    CountNone(before, from, now);
    CountSkipsFirst(inside, from, now);
    if s.failures > limit {
      assert inside == inside[..limit] + [inside[limit]];
      CountAppend(inside[..limit], inside[limit], from, now);
      CountNone(inside[..limit], from, now);
    }
    forall t | t in log ensures t < now {
      assert t in before || t in inside;
    }
  }

  lemma LoadedKeeps(k: KeyRun, now: Millis, limit: nat)
    requires limit >= 2 && KeyInv(k, now, limit)
    ensures KeyInv(k.(state := Loaded(k.state, now)), now, limit)
  {
    if k.state.Some? && Stale(k.state.value, now) { OverIsClosed(k.state.value, k.log, now, limit); }
  }

  /** An accepted failure meets fewer than 2L - 1 recent ones. */
  lemma RoomForOne(k: KeyRun, now: Millis, limit: nat)
    requires limit >= 2 && KeyInv(k, now, limit) && !Blocked(k.state, now)
    ensures Count(k.log, now - LOGIN_WINDOW_MS, now) <= 2 * limit - 2
  {
    hide Count;
    if k.state.Some? && now <= k.state.value.windowStartedAt + LOGIN_WINDOW_MS {
      RoomInWindow(k, now, limit);
    } else if k.state.Some? {
      OverIsClosed(k.state.value, k.log, now, limit);
    }
  }

  lemma RoomInWindow(k: KeyRun, now: Millis, limit: nat)
    requires limit >= 2 && KeyInv(k, now, limit) && !Blocked(k.state, now)
    requires k.state.Some? && now <= k.state.value.windowStartedAt + LOGIN_WINDOW_MS
    ensures Count(k.log, now - LOGIN_WINDOW_MS, now) <= 2 * limit - 2
  {
    hide Count;
    var from := now - LOGIN_WINDOW_MS;
    var s := k.state.value;
    var before, inside := k.log[..|k.log| - s.failures], k.log[|k.log| - s.failures..];
    assert k.log == before + inside;
    CountSplit(before, inside, from, now);
    CountNarrower(inside, from, now, from, now);
    if s.failures >= limit {
      WindowFull(k, now, limit);
      CountNone(before, from, now);
    } else {
      CountNarrower(before, s.windowStartedAt - LOGIN_WINDOW_MS, now, from, now);
    }
  }

  lemma FailKeeps(k: KeyRun, now: Millis, limit: nat)
    requires limit >= 2 && KeyInv(k, now, limit) && !Blocked(k.state, now)
    ensures KeyInv(KeyRun(Some(Failed(k.state, now, limit)), k.log + [now]), now, limit)
  {
    hide Count, WindowOpen, WindowClosed;
    if k.state.Some? && now <= k.state.value.windowStartedAt + LOGIN_WINDOW_MS {
      SameWindowKeeps(k, now, limit);
    } else {
      if k.state.Some? { OverIsClosed(k.state.value, k.log, now, limit); }
      NewWindow(k.state, k.log, now, limit);
    }
    LogGrows(k.log, now);
  }

  lemma LogGrows(log: seq<Millis>, now: Millis)
    requires (forall i, j | 0 <= i < j < |log| :: log[i] <= log[j]) && forall t | t in log :: t <= now
    ensures forall i, j | 0 <= i < j < |log + [now]| :: (log + [now])[i] <= (log + [now])[j]
    ensures forall t | t in log + [now] :: t <= now
  {
    forall i | 0 <= i < |log| ensures log[i] <= now { assert log[i] in log; }
  }

  lemma NewWindow(state: Option<ThrottleState>, log: seq<Millis>, now: Millis, limit: nat)
    requires limit >= 2 && WindowClosed(log, now, limit)
    requires state.Some? ==> now > state.value.windowStartedAt + LOGIN_WINDOW_MS
    ensures WindowOpen(Failed(state, now, limit), log + [now], now, limit)
  {
    hide Count;
    var log' := log + [now];
    assert log'[..|log'| - 1] == log && log'[|log'| - 1..] == [now];
  }

  lemma SameWindowKeeps(k: KeyRun, now: Millis, limit: nat)
    requires limit >= 2 && KeyInv(k, now, limit) && !Blocked(k.state, now)
    requires k.state.Some? && now <= k.state.value.windowStartedAt + LOGIN_WINDOW_MS
    ensures WindowOpen(Failed(k.state, now, limit), k.log + [now], now, limit)
  {
    hide Count, Failed, Blocked, Overrun;
    var s := k.state.value;
    var s' := Failed(k.state, now, limit);
    OneCounted(s, now, limit);
    var log' := k.log + [now];
    var inside := k.log[|k.log| - s.failures..];
    assert |log'| - s'.failures == |k.log| - s.failures;
    assert log'[..|k.log| - s.failures] == k.log[..|k.log| - s.failures];
    assert log'[|k.log| - s.failures..] == inside + [now];
    if s.failures >= limit {
      WindowFull(k, now, limit);
      FullOverruns(s', inside + [now], limit);
    }
  }

  /** In the window a failure adds one. */
  lemma OneCounted(s: ThrottleState, now: Millis, limit: nat)
    requires now <= s.windowStartedAt + LOGIN_WINDOW_MS
    ensures var failures := s.failures + 1;
      Failed(Some(s), now, limit) == ThrottleState(failures, s.windowStartedAt, if failures >= limit then Some(now + LOGIN_BLOCK_MS) else None)
  {
  }

  lemma FullOverruns(s: ThrottleState, inside: seq<Millis>, limit: nat)
    requires s.failures == limit + 1 == |inside| && inside[limit] == s.windowStartedAt + LOGIN_WINDOW_MS
    requires forall i | 0 <= i < limit :: inside[i] == s.windowStartedAt
    ensures Overrun(s, inside, limit)
  {
  }

  /** A full window takes one more failure only in its very last millisecond. */
  lemma WindowFull(k: KeyRun, now: Millis, limit: nat)
    requires limit >= 2 && KeyInv(k, now, limit) && !Blocked(k.state, now)
    requires k.state.Some? && now <= k.state.value.windowStartedAt + LOGIN_WINDOW_MS && k.state.value.failures >= limit
    ensures now == k.state.value.windowStartedAt + LOGIN_WINDOW_MS && k.state.value.failures == limit
    ensures forall i | |k.log| - limit <= i < |k.log| :: k.log[i] == k.state.value.windowStartedAt
  {
    var s := k.state.value;
    var inside := k.log[|k.log| - s.failures..];
    assert inside[|inside| - 1] == k.log[|k.log| - 1] && inside[|inside| - 1] in inside;
    forall i | |k.log| - s.failures <= i < |k.log| ensures k.log[i] == s.windowStartedAt {
      assert inside[i - (|k.log| - s.failures)] == k.log[i] && k.log[i] in inside;
    }
  }

  // ---------------------------------------------------------------- every run

  lemma StepKeeps(k: KeyRun, e: KeyEvent, now: Millis, limit: nat)
    requires limit >= 2 && KeyInv(k, now, limit) && SpansBounded(k.log, limit) && now <= e.now
    ensures KeyInv(Step(k, e, limit), e.now, limit) && SpansBounded(Step(k, e, limit).log, limit)
  {
    hide KeyInv, SpansBounded, Failed, Blocked, Loaded;
    LaterKeeps(k, now, e.now, limit);
    LoadedKeeps(k, e.now, limit);
    if e.Clear? {
      Cleared(e.now, limit);
    } else if e.Fail? && !Blocked(k.state, e.now) {
      FailKeeps(k, e.now, limit);
      RoomForOne(k, e.now, limit);
      OneMoreBounded(k.log, e.now, limit);
    }
  }

  lemma OneMoreBounded(log: seq<Millis>, now: Millis, limit: nat)
    requires limit >= 1 && SpansBounded(log, limit) && Count(log, now - LOGIN_WINDOW_MS, now) <= 2 * limit - 2
    ensures SpansBounded(log + [now], limit)
  {
    hide Count;
    var log' := log + [now];
    forall n | 0 <= n < |log'| ensures RecentAt(log', n) <= 2 * limit - 1 {
      if n < |log| {
        assert log'[..n + 1] == log[..n + 1] && RecentAt(log, n) <= 2 * limit - 1;
      } else {
        assert log'[..n + 1] == log';
        CountAppend(log, now, now - LOGIN_WINDOW_MS, now);
      }
    }
  }

  lemma Cleared(now: Millis, limit: nat)
    requires limit >= 1
    ensures KeyInv(KeyRun(None, []), now, limit) && SpansBounded([], limit)
  {
  }

  lemma {:induction false} AlwaysBounded(events: seq<KeyEvent>, limit: nat)
    requires limit >= 2 && InOrder(events)
    ensures KeyInv(Run(events, limit), if events == [] then 0 else events[|events| - 1].now, limit)
    ensures SpansBounded(Run(events, limit).log, limit)
  {
    if events != [] {
      AlwaysBounded(events[..|events| - 1], limit);
      hide KeyInv, SpansBounded;
      StepKeeps(Run(events[..|events| - 1], limit), events[|events| - 1],
                if |events| == 1 then 0 else events[|events| - 2].now, limit);
    }
  }

  /** Any closed fifteen-minute span, wherever it lies, holds at most 2L - 1 recorded failures. */
  lemma SlidingBound(events: seq<KeyEvent>, limit: nat, from: Millis)
    requires limit >= 2 && InOrder(events)
    ensures SpanCount(Run(events, limit).log, from) <= 2 * limit - 1
  {
    AlwaysBounded(events, limit);
    LastInSpan(Run(events, limit).log, from, limit);
  }

  lemma {:induction false} LastInSpan(log: seq<Millis>, from: Millis, limit: nat)
    requires limit >= 1 && SpansBounded(log, limit) && forall i, j | 0 <= i < j < |log| :: log[i] <= log[j]
    ensures SpanCount(log, from) <= 2 * limit - 1
  {
    if log != [] {
      var n := |log| - 1;
      if from <= log[n] <= from + LOGIN_WINDOW_MS {
        assert log[..n + 1] == log && RecentAt(log, n) <= 2 * limit - 1;
        CountUpTo(log, from, log[n], from + LOGIN_WINDOW_MS);
        CountNarrower(log, log[n] - LOGIN_WINDOW_MS, log[n], from, log[n]);
      } else {
        forall m | 0 <= m < n ensures RecentAt(log[..n], m) == RecentAt(log, m) {
          assert log[..n][..m + 1] == log[..m + 1];
        }
        LastInSpan(log[..n], from, limit);
      }
    }
  }

  /** 59 for an address, 11 for a user between two successful logins. */
  lemma SlidingBounds(key: ThrottleKey, events: seq<KeyEvent>, from: Millis)
    requires InOrder(events)
    ensures SpanCount(Run(events, LimitOf(key)).log, from) <= if key.UserKey? then 11 else 59
  {
    SlidingBound(events, LimitOf(key), from);
  }

  // ---------------------------------------------------------------- no lock-out without cause, and tightness

  /** A key refuses only after at least L recorded failures within one fifteen-minute window. */
  lemma RefusalHasCause(events: seq<KeyEvent>, limit: nat, now: Millis)
    requires limit >= 2 && InOrder(events) && (events != [] ==> events[|events| - 1].now <= now)
    requires Blocked(Run(events, limit).state, now)
    ensures exists from: Millis :: SpanCount(Run(events, limit).log, from) >= limit
  {
    AlwaysBounded(events, limit);
    var k := Run(events, limit);
    FullWindow(k, if events == [] then 0 else events[|events| - 1].now, now, limit);
    assert SpanCount(k.log, k.state.value.windowStartedAt) >= limit;
  }

  lemma FullWindow(k: KeyRun, last: Millis, now: Millis, limit: nat)
    requires limit >= 2 && KeyInv(k, last, limit) && Blocked(k.state, now)
    ensures SpanCount(k.log, k.state.value.windowStartedAt) >= limit
  {
    hide Count;
    var s := k.state.value;
    var before, inside := k.log[..|k.log| - s.failures], k.log[|k.log| - s.failures..];
    assert k.log == before + inside;
    CountSplit(before, inside, s.windowStartedAt, s.windowStartedAt + LOGIN_WINDOW_MS);
    CountAll(inside, s.windowStartedAt, s.windowStartedAt + LOGIN_WINDOW_MS);
  }

  lemma {:induction false} CountAll(log: seq<Millis>, from: int, to: int)
    requires forall t | t in log :: from <= t <= to
    ensures Count(log, from, to) == |log|
  {
    if log != [] {
      var shorter := log[..|log| - 1];
      assert log[|log| - 1] in log;
      forall t | t in shorter ensures from <= t <= to { assert t in log; }
      CountAll(shorter, from, to);
    }
  }

  function Repeat(n: nat, now: Millis): seq<KeyEvent> {
    seq(n, _ => Fail(now))
  }

  function Times(n: nat, now: Millis): seq<Millis> {
    seq(n, _ => now)
  }

  /** n more failures in an open window that still has room. */
  lemma {:induction false} RepeatInWindow(events: seq<KeyEvent>, n: nat, now: Millis, limit: nat)
    requires var k := Run(events, limit);
      && k.state.Some? && k.state.value.failures + n <= limit && (k.state.value.failures < limit ==> k.state.value.blockedUntil.None?)
      && k.state.value.windowStartedAt <= now <= k.state.value.windowStartedAt + LOGIN_WINDOW_MS
    ensures var k := Run(events, limit); var k' := Run(events + Repeat(n, now), limit);
      && k'.log == k.log + Times(n, now) && k'.state.Some?
      && k'.state.value.failures == k.state.value.failures + n && k'.state.value.windowStartedAt == k.state.value.windowStartedAt
      && (k'.state.value.failures < limit ==> k'.state.value.blockedUntil.None?)
      && (n > 0 && k'.state.value.failures == limit ==> k'.state.value.blockedUntil == Some(now + LOGIN_BLOCK_MS))
  {
    if n == 0 {
      assert events + Repeat(0, now) == events;
    } else {
      RepeatInWindow(events, n - 1, now, limit);
      var longer := events + Repeat(n, now);
      assert longer[..|longer| - 1] == events + Repeat(n - 1, now) && longer[|longer| - 1] == Fail(now);
      assert Run(events, limit).log + Times(n, now) == Run(events, limit).log + Times(n - 1, now) + [now];
    }
  }

  function Tight(limit: nat): seq<KeyEvent>
    requires limit >= 2
  {
    [Fail(0)] + Repeat(limit - 1, LOGIN_WINDOW_MS) + [Fail(2 * LOGIN_WINDOW_MS)] + Repeat(limit - 1, 2 * LOGIN_WINDOW_MS)
  }

  lemma RunMore(events: seq<KeyEvent>, e: KeyEvent, limit: nat)
    ensures Run(events + [e], limit) == Step(Run(events, limit), e, limit)
  {
    assert (events + [e])[..|events + [e]| - 1] == events;
  }

  /** L - 1 more failures at the end of a window opened at 0 block the key; the next one, when the
      block ends, opens a new window. */
  lemma TightStart(limit: nat)
    requires limit >= 2
    ensures var w := LOGIN_WINDOW_MS; var k := Run([Fail(0)] + Repeat(limit - 1, w) + [Fail(2 * w)], limit);
      k.state == Some(ThrottleState(1, 2 * w, None)) && k.log == [0] + Times(limit - 1, w) + [2 * w]
  {
    var w := LOGIN_WINDOW_MS;
    var first: seq<KeyEvent> := [Fail(0)];
    RunMore([], Fail(0), limit);
    assert [] + first == first;
    assert Run(first, limit) == KeyRun(Some(ThrottleState(1, 0, None)), [0]);
    hide Run;
    RepeatInWindow(first, limit - 1, w, limit);
    RunMore(first + Repeat(limit - 1, w), Fail(2 * w), limit);
  }

  /** The bound is reached: one failure, L - 1 at the end of its window, L when the block ends. */
  lemma BoundIsTight(limit: nat)
    requires limit >= 2
    ensures InOrder(Tight(limit))
    ensures SpanCount(Run(Tight(limit), limit).log, LOGIN_WINDOW_MS) == 2 * limit - 1
  {
    hide Run, Step, Count;
    var w := LOGIN_WINDOW_MS;
    TightStart(limit);
    RepeatInWindow([Fail(0)] + Repeat(limit - 1, w) + [Fail(2 * w)], limit - 1, 2 * w, limit);
    var a, b := Times(limit - 1, w), [2 * w] + Times(limit - 1, 2 * w);
    assert Run(Tight(limit), limit).log == [0] + (a + b);
    CountSplit([0], a + b, w, 2 * w);
    CountNone([0], w, 2 * w);
    CountAll(a + b, w, 2 * w);
  }

  // ---------------------------------------------------------------- the rows in place

  /** An event's effect on the row alone. */
  function NextState(state: Option<ThrottleState>, e: KeyEvent, limit: nat): Option<ThrottleState> {
    match e
    case Look(now) => Loaded(state, now)
    case Fail(now) => if Blocked(state, now) then Loaded(state, now) else Some(Failed(state, now, limit))
    case Clear(_) => None
  }

  /** The row is where these events have brought it. */
  ghost predicate Follows(state: Option<ThrottleState>, events: seq<KeyEvent>, limit: nat, clock: Millis) {
    state == Run(events, limit).state && InOrder(events) && forall e | e in events :: e.now <= clock
  }

  lemma OneMoreEvent(state: Option<ThrottleState>, events: seq<KeyEvent>, e: KeyEvent, limit: nat, clock: Millis)
    requires Follows(state, events, limit, clock) && clock <= e.now
    ensures Follows(NextState(state, e, limit), events + [e], limit, e.now)
  {
    hide Run, Loaded, Failed, Blocked;
    RunMore(events, e, limit);
    forall i | 0 <= i < |events| ensures events[i].now <= clock { assert events[i] in events; }
  }

  lemma FollowsLater(state: Option<ThrottleState>, events: seq<KeyEvent>, limit: nat, clock: Millis, later: Millis)
    requires Follows(state, events, limit, clock) && clock <= later
    ensures Follows(state, events, limit, later)
  {
    hide Run;
  }

  lemma FollowsInOrder(state: Option<ThrottleState>, events: seq<KeyEvent>, limit: nat, clock: Millis)
    requires Follows(state, events, limit, clock)
    ensures InOrder(events)
  {
    hide Run;
  }

  datatype LoginReply = TooManyAttempts | InvalidCredentials | AccountExpired | LoggedIn

  /** app_settings, as far as the throttle uses it. */
  class Throttle {
    var settings: map<ThrottleKey, ThrottleState>
    ghost var events: map<ThrottleKey, seq<KeyEvent>>
    ghost var clock: Millis

    ghost function EventsOf(key: ThrottleKey): seq<KeyEvent>
      reads this
    {
      if key in events then events[key] else []
    }

    /** Every row is where the logins so far have brought it. */
    ghost predicate Valid()
      reads this
    {
      forall key :: Follows(StateOf(key), EventsOf(key), LimitOf(key), clock)
    }

    constructor ()
      ensures Valid() && settings == map[] && clock == 0
    {
      settings, events, clock := map[], map[], 0;
    }

    function StateOf(key: ThrottleKey): Option<ThrottleState>
      reads this
    {
      if key in settings then Some(settings[key]) else None
    }

    method LoadLoginThrottle(key: ThrottleKey, now: Millis) returns (state: Option<ThrottleState>)
      modifies this`settings
      ensures state == Loaded(old(StateOf(key)), now) == StateOf(key)
      ensures forall k | k != key :: StateOf(k) == old(StateOf(k))
    {
      if key !in settings {
        return None;
      }
      var s := settings[key];
      if now > s.windowStartedAt + LOGIN_WINDOW_MS && (s.blockedUntil.None? || s.blockedUntil.value <= now) {
        settings := settings - {key};
        return None;
      }
      state := Some(s);
    }

    /** assertLoginNotThrottled: blocked if either key is, until the later of the two times. */
    method AssertLoginNotThrottled(user: ThrottleKey, ip: ThrottleKey, now: Millis) returns (retryAt: Option<Millis>)
      requires user.UserKey? && ip.IpKey?
      modifies this`settings
      ensures StateOf(user) == Loaded(old(StateOf(user)), now) && StateOf(ip) == Loaded(old(StateOf(ip)), now)
      ensures forall k | k != user && k != ip :: StateOf(k) == old(StateOf(k))
      ensures retryAt.Some? <==> Blocked(old(StateOf(user)), now) || Blocked(old(StateOf(ip)), now)
      ensures retryAt.Some? ==> now < retryAt.value
      ensures forall k | k in {user, ip} && Blocked(old(StateOf(k)), now) :: retryAt.Some? && old(StateOf(k)).value.blockedUntil.value <= retryAt.value
      ensures retryAt.Some? ==> exists k | k in {user, ip} :: Blocked(old(StateOf(k)), now) && old(StateOf(k)).value.blockedUntil == retryAt
    {
      var a := LoadLoginThrottle(user, now);
      var b := LoadLoginThrottle(ip, now);
      var latest := 0;
      if a.Some? && a.value.blockedUntil.Some? && a.value.blockedUntil.value > latest {
        latest := a.value.blockedUntil.value;
      }
      if b.Some? && b.value.blockedUntil.Some? && b.value.blockedUntil.value > latest {
        latest := b.value.blockedUntil.value;
      }
      retryAt := if latest > now then Some(latest) else None;
    }

    /** recordLoginFailure: both counters, one after the other. */
    method RecordLoginFailure(user: ThrottleKey, ip: ThrottleKey, now: Millis) returns (blocked: bool)
      requires user.UserKey? && ip.IpKey?
      modifies this`settings
      ensures StateOf(user) == Some(Failed(old(StateOf(user)), now, LimitOf(user)))
      ensures StateOf(ip) == Some(Failed(old(StateOf(ip)), now, LimitOf(ip)))
      ensures forall k | k != user && k != ip :: StateOf(k) == old(StateOf(k))
      ensures blocked <==> StateOf(user).value.blockedUntil.Some? || StateOf(ip).value.blockedUntil.Some?
    {
      blocked := false;
      var keys := [user, ip];
      for n := 0 to |keys|
        invariant forall i | 0 <= i < n :: StateOf(keys[i]) == Some(Failed(old(StateOf(keys[i])), now, LimitOf(keys[i])))
        invariant forall k | k !in keys[..n] :: StateOf(k) == old(StateOf(k))
        invariant blocked <==> exists i | 0 <= i < n :: StateOf(keys[i]).Some? && StateOf(keys[i]).value.blockedUntil.Some?
      {
        var key := keys[n];
        label turn:
        var current := LoadLoginThrottle(key, now);
        var same := current.Some? && now <= current.value.windowStartedAt + LOGIN_WINDOW_MS;
        var failures := (if same then current.value.failures else 0) + 1;
        var until := if failures >= LimitOf(key) then Some(now + LOGIN_BLOCK_MS) else None;
        blocked := blocked || until.Some?;
        settings := settings[key := ThrottleState(failures, if same then current.value.windowStartedAt else now, until)];
        assert forall k | k != key :: StateOf(k) == old@turn(StateOf(k));
        assert keys[..n + 1] == keys[..n] + [key];
      }
      assert keys[0] == user && keys[1] == ip && keys[..2] == keys;
    }

    /** handleLogin as one step: to each key it is one of the events Look, Fail and Clear. The right
        password of an expired account clears the user's row like any other. */
    method HandleLogin(user: ThrottleKey, ip: ThrottleKey, verified: bool, expired: bool, now: Millis) returns (reply: LoginReply)
      requires user.UserKey? && ip.IpKey? && Valid() && clock <= now
      modifies this
      ensures Valid() && clock == now
      ensures var refused := Blocked(old(StateOf(user)), now) || Blocked(old(StateOf(ip)), now);
        && (refused ==> reply == TooManyAttempts) && (reply == LoggedIn <==> verified && !refused && !expired)
        && (reply == AccountExpired <==> verified && !refused && expired)
        && EventsOf(user) == old(EventsOf(user)) + [if refused then Look(now) else if verified then Clear(now) else Fail(now)]
        && EventsOf(ip) == old(EventsOf(ip)) + [if refused || verified then Look(now) else Fail(now)]
      ensures forall k | k != user && k != ip :: EventsOf(k) == old(EventsOf(k))
      // what the runs of one key imply, for every address and every user
      ensures forall k, from: Millis :: SpanCount(Run(EventsOf(k), LimitOf(k)).log, from) <= (if k.UserKey? then 11 else 59)
    {
      hide Follows, Blocked, NextState, LimitOf, SpanCount;
      ghost var refused := Blocked(StateOf(user), now) || Blocked(StateOf(ip), now);
      ghost var u := if refused then Look(now) else if verified then Clear(now) else Fail(now);
      ghost var a := if refused || verified then Look(now) else Fail(now);
      assert Follows(StateOf(user), EventsOf(user), LimitOf(user), clock) && Follows(StateOf(ip), EventsOf(ip), LimitOf(ip), clock);
      OneMoreEvent(StateOf(user), EventsOf(user), u, LimitOf(user), clock);
      OneMoreEvent(StateOf(ip), EventsOf(ip), a, LimitOf(ip), clock);
      reply := Decide(user, ip, verified, expired, now);
      events := events[user := old(EventsOf(user)) + [u]][ip := old(EventsOf(ip)) + [a]];
      clock := now;
      forall k ensures Follows(StateOf(k), EventsOf(k), LimitOf(k), clock) {
        if k != user && k != ip { FollowsLater(StateOf(k), EventsOf(k), LimitOf(k), old(clock), now); }
      }
      forall k, from: Millis ensures SpanCount(Run(EventsOf(k), LimitOf(k)).log, from) <= (if k.UserKey? then 11 else 59) {
        FollowsInOrder(StateOf(k), EventsOf(k), LimitOf(k), clock);
        SlidingBounds(k, EventsOf(k), from);
      }
    }

    /** What the handler does to the rows. */
    method Decide(user: ThrottleKey, ip: ThrottleKey, verified: bool, expired: bool, now: Millis) returns (reply: LoginReply)
      requires user.UserKey? && ip.IpKey?
      modifies this`settings
      ensures var (u, a) := (old(StateOf(user)), old(StateOf(ip)));
        var refused := Blocked(u, now) || Blocked(a, now);
        && StateOf(user) == NextState(u, if refused then Look(now) else if verified then Clear(now) else Fail(now), LimitOf(user))
        && StateOf(ip) == NextState(a, if refused || verified then Look(now) else Fail(now), LimitOf(ip))
        && (reply.LoggedIn? <==> verified && !refused && !expired) && (refused ==> reply.TooManyAttempts?)
        && (reply.AccountExpired? <==> verified && !refused && expired)
      ensures forall k | k != user && k != ip :: StateOf(k) == old(StateOf(k))
    {
      var retryAt := AssertLoginNotThrottled(user, ip, now);
      if retryAt.Some? {
        return TooManyAttempts;
      }
      if !verified {
        var blocked := RecordLoginFailure(user, ip, now);
        return if blocked then TooManyAttempts else InvalidCredentials;
      }
      settings := settings - {user};
      reply := if expired then AccountExpired else LoggedIn;
    }
  }
}
