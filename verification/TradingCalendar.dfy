/** Trading sessions: weekdays that are not exchange closures. Days are proleptic ordinals, day 1
    being a Monday; the built-in calendar only answers for the year 2026. */
module TradingCalendar {
  import opened Wrappers
  import opened Basics

  function Weekday(day: int): int { (day - 1) % 7 }

  const FIRST_2026 := 739617
  const LAST_2026 := 739981

  const CLOSED_2026: set<int> := set d | 0 <= d < 365 &&
    (d in {0, 1, 95, 169, 267} || 46 <= d <= 53 || 120 <= d <= 124 || 273 <= d <= 279) :: FIRST_2026 + d

  datatype Calendar = Official | Custom(closed: set<int>)

  function Closed(c: Calendar): set<int> {
    if c.Custom? then c.closed else CLOSED_2026
  }

  /** The official calendar refuses to guess outside its year. */
  predicate Known(c: Calendar, day: int) {
    c.Custom? || FIRST_2026 <= day <= LAST_2026
  }

  predicate Open(c: Calendar, day: int) {
    Weekday(day) < 5 && day !in Closed(c)
  }

  function IsSession(c: Calendar, day: int): Option<bool> {
    if Known(c, day) then Some(Open(c, day)) else None
  }

  /** The ordinal of a day of 2026. */
  function In2026(month: int, day: int): int
    requires 1 <= month <= 12
  {
    FIRST_2026 - 1 + [0, 31, 59, 90, 120, 151, 181, 212, 243, 273, 304, 334][month - 1] + day
  }

  function MonthLength(month: int): int {
    if month == 2 then 28 else if month in {4, 6, 9, 11} then 30 else 31
  }

  /** The published closures of 2026: New Year, Spring Festival, Tomb-Sweeping Day, Labour Day, Dragon Boat and
      Mid-Autumn Festival, and National Day. */
  lemma ClosuresOf2026(month: int, day: int)
    requires 1 <= month <= 12 && 1 <= day <= MonthLength(month)
    ensures In2026(month, day) in CLOSED_2026 <==>
      || (month == 1 && day <= 2) || (month == 2 && 16 <= day <= 23) || (month == 4 && day == 6)
      || (month == 5 && day <= 5) || (month == 6 && day == 19) || (month == 9 && day == 25)
      || (month == 10 && day <= 7)
  {
    ClosedOffset(In2026(month, day) - FIRST_2026);
    hide CLOSED_2026;
  }

  lemma ClosedOffset(d: int)
    ensures FIRST_2026 + d in CLOSED_2026 <==>
      0 <= d < 365 && (d in {0, 1, 95, 169, 267} || 46 <= d <= 53 || 120 <= d <= 124 || 273 <= d <= 279)
  {
    var closed := d in {0, 1, 95, 169, 267} || 46 <= d <= 53 || 120 <= d <= 124 || 273 <= d <= 279;
    assert FIRST_2026 + d in CLOSED_2026 ==> 0 <= d < 365 && closed;
    if 0 <= d < 365 && closed { assert FIRST_2026 + d in CLOSED_2026; }
  }

  /** 2026 begins on a Thursday and ends where the calendar does; every week has seven days. */
  lemma WeekdaysKnown(day: int)
    ensures In2026(1, 1) == FIRST_2026 && In2026(12, 31) == LAST_2026 && Weekday(FIRST_2026) == 3
    ensures Weekday(day + 1) == if Weekday(day) == 6 then 0 else Weekday(day) + 1
  {
  }

  /** Every calendar has a session after any day, since its closures are finitely many. */
  lemma SessionAfter(c: Calendar, day: int) returns (open: int)
    ensures open > day && Open(c, open)
  {
    var top := UpperBound(Closed(c));
    var k := if top > day then top else day;
    open := k + 1;
    if Weekday(open) >= 5 { open := open + 7 - Weekday(open); }
  }

  lemma SessionBefore(c: Calendar, day: int) returns (open: int)
    ensures open < day && Open(c, open)
  {
    var bottom := LowerBound(Closed(c));
    var k := if bottom < day then bottom else day;
    open := k - 1;
    if Weekday(open) >= 5 { open := open - (Weekday(open) - 4); }
  }

  lemma {:induction false} UpperBound(days: set<int>) returns (top: int)
    ensures forall d :: d in days ==> d <= top
  {
    if x :| x in days {
      var rest := UpperBound(days - {x});
      top := if x > rest then x else rest;
      forall d | d in days ensures d <= top { assert d == x || d in days - {x}; }
    } else {
      top := 0;
    }
  }

  lemma {:induction false} LowerBound(days: set<int>) returns (bottom: int)
    ensures forall d :: d in days ==> d >= bottom
  {
    if x :| x in days {
      var rest := LowerBound(days - {x});
      bottom := if x < rest then x else rest;
      forall d | d in days ensures d >= bottom { assert d == x || d in days - {x}; }
    } else {
      bottom := 0;
    }
  }

  /** `next` is the nearest session after `day`. */
  ghost predicate NextIs(c: Calendar, day: int, next: int) {
    day < next && Open(c, next) && forall d :: day < d < next ==> !Open(c, d)
  }

  ghost predicate PreviousIs(c: Calendar, day: int, previous: int) {
    previous < day && Open(c, previous) && forall d :: previous < d < day ==> !Open(c, d)
  }

  /** Walks forward day by day; an answer is always the nearest session, and there is none exactly
      when the walk leaves the known year first. */
  method NextSession(c: Calendar, day: int) returns (r: Option<int>)
    ensures r.Some? ==> NextIs(c, day, r.value) && forall d :: day < d <= r.value ==> Known(c, d)
    ensures r.None? <==> exists d :: day < d && !Known(c, d) && forall e :: day < e < d ==> !Open(c, e)
  {
    ghost var bound := SessionAfter(c, day);
    var candidate := day + 1;
    while true
      invariant day < candidate <= bound
      invariant forall d :: day < d < candidate ==> Known(c, d) && !Open(c, d)
      decreases bound - candidate
    {
      var session := IsSession(c, candidate);
      if session.None? { return None; }
      if session.value { return Some(candidate); }
      candidate := candidate + 1;
    }
  }

  method PreviousSession(c: Calendar, day: int) returns (r: Option<int>)
    ensures r.Some? ==> PreviousIs(c, day, r.value) && forall d :: r.value <= d < day ==> Known(c, d)
    ensures r.None? <==> exists d :: d < day && !Known(c, d) && forall e :: d < e < day ==> !Open(c, e)
  {
    ghost var bound := SessionBefore(c, day);
    var candidate := day - 1;
    while true
      invariant bound <= candidate < day
      invariant forall d :: candidate < d < day ==> Known(c, d) && !Open(c, d)
      decreases candidate - bound
    {
      var session := IsSession(c, candidate);
      if session.None? { return None; }
      if session.value { return Some(candidate); }
      candidate := candidate - 1;
    }
  }

  /** On sessions the two walks undo each other. */
  lemma NextAndPreviousInverse(c: Calendar, a: int, b: int)
    requires Open(c, a) && Open(c, b)
    ensures NextIs(c, a, b) <==> PreviousIs(c, b, a)
  {
  }

  /** The session a clock reading after or before the close refers to; there is none exactly when the walk
      back leaves the known year first. */
  method LatestCompleted(c: Calendar, day: int, afterClose: bool) returns (r: Option<int>)
    ensures r.Some? ==>
      && Open(c, r.value) && r.value <= day && (forall d :: r.value < d < day ==> !Open(c, d))
      && (r.value == day ==> afterClose) && (afterClose && Open(c, day) ==> r.value == day)
      && forall d :: r.value <= d <= day ==> Known(c, d)
    ensures r.None? <==>
      exists d :: d <= day && !Known(c, d) && forall e :: d < e <= day && (e < day || afterClose) ==> !Open(c, e)
  {
    var session := IsSession(c, day);
    if session.None? { return None; }
    if session.value && afterClose { return Some(day); }
    r := PreviousSession(c, day);
  }

  // ------------------------------------------------------------- counting sessions

  /** Sessions in `(a, b]`. */
  function Sessions(c: Calendar, a: int, b: int): nat
    decreases b - a
  {
    if b <= a then 0 else Sessions(c, a, b - 1) + if Open(c, b) then 1 else 0
  }

  lemma {:induction false} SessionsSplit(c: Calendar, a: int, m: int, b: int)
    requires a <= m <= b
    ensures Sessions(c, a, b) == Sessions(c, a, m) + Sessions(c, m, b)
    decreases b - m
  {
    if m < b { SessionsSplit(c, a, m, b - 1); }
  }

  lemma {:induction false} NoSessions(c: Calendar, a: int, b: int)
    requires forall d :: a < d <= b ==> !Open(c, d)
    ensures Sessions(c, a, b) == 0
    decreases b - a
  {
    if a < b { NoSessions(c, a, b - 1); }
  }

  lemma NextCountsOne(c: Calendar, day: int, next: int)
    requires NextIs(c, day, next)
    ensures Sessions(c, day, next) == 1
  {
    NoSessions(c, day, next - 1);
  }

  /** `day` is the n-th session after `start`. */
  ghost predicate NthSession(c: Calendar, start: int, n: nat, day: int) {
    if n == 0 then day == start
    else day > start && Open(c, day) && Sessions(c, start, day) == n
  }

  /** `day` is reached from `start` by `n` steps to the next session. */
  ghost predicate Stepped(c: Calendar, start: int, n: nat, day: int) {
    if n == 0 then day == start
    else exists before :: Stepped(c, start, n - 1, before) && NextIs(c, before, day)
  }

  /** The last session in `(a, b]`, if there is one. */
  lemma {:induction false} LastSession(c: Calendar, a: int, b: int) returns (last: int)
    requires Sessions(c, a, b) > 0
    ensures a < last <= b && Open(c, last) && Sessions(c, a, last) == Sessions(c, a, b)
    ensures forall d :: last < d <= b ==> !Open(c, d)
    decreases b - a
  {
    if Open(c, b) { last := b; } else { last := LastSession(c, a, b - 1); }
  }

  /** Stepping and counting agree: `n` steps from `start` lead exactly to the day that is a session
      and has `n` sessions from `start` up to it. */
  lemma {:induction false} SteppedIffCounted(c: Calendar, start: int, n: nat, day: int)
    ensures Stepped(c, start, n, day) <==> NthSession(c, start, n, day)
  {
    if n > 0 {
      if Stepped(c, start, n, day) {
        var before :| Stepped(c, start, n - 1, before) && NextIs(c, before, day);
        SteppedIffCounted(c, start, n - 1, before);
        NextCountsOne(c, before, day);
        SessionsSplit(c, start, before, day);
      }
      if NthSession(c, start, n, day) {
        var before := start;
        if n > 1 {
          before := LastSession(c, start, day - 1);
        } else {
          forall d | start < d < day ensures !Open(c, d) {
            SessionsSplit(c, start, d, day - 1);
          }
        }
        SteppedIffCounted(c, start, n - 1, before);
        assert NextIs(c, before, day);
      }
    }
  }

  /** The default maturity: `horizon` steps of `next_session`. */
  method FutureSession(c: Calendar, start: int, horizon: nat) returns (r: Option<int>)
    ensures r.Some? ==> Stepped(c, start, horizon, r.value)
    ensures c.Custom? ==> r.Some?
    ensures c.Official? ==>
      (r.Some? <==> horizon == 0 || (FIRST_2026 - 1 <= start <= LAST_2026 && horizon <= Sessions(c, start, LAST_2026)))
  {
    var current := start;
    for i := 0 to horizon
      invariant Stepped(c, start, i, current) && current >= start
      invariant c.Official? && FIRST_2026 - 1 <= start <= LAST_2026 ==>
        current <= LAST_2026 && i <= Sessions(c, start, LAST_2026)
      invariant c.Official? && i > 0 ==> FIRST_2026 - 1 <= start <= LAST_2026
    {
      SteppedIffCounted(c, start, i, current);
      var next := NextSession(c, current);
      if next.None? {
        if c.Official? && FIRST_2026 - 1 <= start <= LAST_2026 {
          NoSessions(c, current, LAST_2026);
          SessionsSplit(c, start, current, LAST_2026);
        }
        return None;
      }
      assert Known(c, next.value) && Known(c, current + 1);
      NextCountsOne(c, current, next.value);
      SessionsSplit(c, start, current, next.value);
      current := next.value;
      if c.Official? && current <= LAST_2026 { SessionsSplit(c, start, current, LAST_2026); }
    }
    r := Some(current);
  }

  /** Counts the sessions after `available` up to `expected`. */
  method BusinessDayDistance(c: Calendar, available: int, expected: int) returns (r: Option<nat>)
    ensures r.Some? ==> r.value == Sessions(c, available, expected)
    ensures r.None? <==> exists d :: available < d <= expected && !Known(c, d)
  {
    if available >= expected { return Some(0); }
    var current, distance := available, 0;
    while current < expected
      invariant available <= current <= expected
      invariant distance == Sessions(c, available, current)
      invariant forall d :: available < d <= current ==> Known(c, d)
    {
      current := current + 1;
      var session := IsSession(c, current);
      if session.None? { return None; }
      if session.value { distance := distance + 1; }
    }
    r := Some(distance);
  }

  // --------------------------------------------------------- sorted session calendars

  /** The supplied days after `start`, sorted. */
  ghost predicate SortedAfter(s: seq<int>, supplied: set<int>, start: int) {
    Increasing(s) && forall d :: d in s <==> d in supplied && d > start
  }

  /** A supplied session calendar is right about the days of `(a, b]`. */
  ghost predicate Agrees(c: Calendar, supplied: set<int>, a: int, b: int) {
    forall d :: a < d <= b ==> (d in supplied <==> Open(c, d))
  }

  lemma IncreasingInjective(s: seq<int>, k: nat)
    requires Increasing(s) && k < |s|
    ensures forall i :: 0 <= i < |s| && s[i] == s[k] ==> i == k
  {
  }

  lemma NotBetween(s: seq<int>, k: nat, d: int, start: int)
    requires Increasing(s) && k < |s| && (forall i :: 0 <= i < |s| ==> start < s[i])
    requires (if k == 0 then start else s[k - 1]) < d < s[k]
    ensures d !in s
  {
  }

  lemma {:induction false} SessionsOfSorted(c: Calendar, s: seq<int>, start: int, k: nat)
    requires Increasing(s) && k < |s| && (forall i :: 0 <= i < |s| ==> start < s[i])
    requires forall d :: start < d <= s[k] ==> (d in s <==> Open(c, d))
    ensures Sessions(c, start, s[k]) == k + 1
  {
    var before := if k == 0 then start else s[k - 1];
    forall d | before < d < s[k] ensures !Open(c, d) {
      NotBetween(s, k, d, start);
    }
    NoSessions(c, before, s[k] - 1);
    assert Open(c, s[k]) by { assert s[k] in s; }
    SessionsSplit(c, start, before, s[k]);
    if k > 0 { SessionsOfSorted(c, s, start, k - 1); }
    else { NoSessions(c, start, start); }
  }

  /** The maturity check of the competition: the `horizon`-th of the supplied sessions after the
      start. Where the supplied calendar is right it accepts exactly the n-th session, so the
      default maturity always passes. */
  lemma MaturityCheckIff(c: Calendar, supplied: set<int>, future: seq<int>, start: int, horizon: nat, day: int)
    requires horizon >= 1 && day > start
    requires SortedAfter(future, supplied, start)
    requires Agrees(c, supplied, start, day)
    ensures day in supplied && horizon <= |future| && future[horizon - 1] == day
            <==> Stepped(c, start, horizon, day)
  {
    SteppedIffCounted(c, start, horizon, day);
    forall i | 0 <= i < |future| ensures start < future[i] { assert future[i] in future; }
    if day in future {
      var k :| 0 <= k < |future| && future[k] == day;
      SessionsOfSorted(c, future, start, k);
      IncreasingInjective(future, k);
    }
  }

  /** The distance the freshness check counts to the day `n` steps ahead is `n`. */
  lemma DistanceToStepped(c: Calendar, start: int, n: nat, day: int)
    requires Stepped(c, start, n, day)
    ensures Sessions(c, start, day) == n
  {
    SteppedIffCounted(c, start, n, day);
  }

  // --------------------------------------------------------------- next weekday

  /** The ledger's default next trading day: the next day that is not on a weekend. */
  method NextWeekday(day: int) returns (candidate: int)
    ensures candidate == WeekdayAfter(day)
  {
    candidate := day + 1;
    while Weekday(candidate) >= 5
      invariant day < candidate <= WeekdayAfter(day)
      decreases WeekdayAfter(day) - candidate
    {
      candidate := candidate + 1;
    }
  }

  function WeekdayAfter(day: int): int {
    if Weekday(day + 1) == 5 then day + 3 else if Weekday(day + 1) == 6 then day + 2 else day + 1
  }

  /** It lies strictly ahead, is the first such weekday, and never runs backwards: what T+1 and
      the FIFO shape ask of a ledger's next-day function. */
  lemma WeekdayAfterIsNext(day: int, later: int)
    ensures NextIs(Custom({}), day, WeekdayAfter(day))
    ensures day <= later ==> WeekdayAfter(day) <= WeekdayAfter(later)
  {
  }
}
