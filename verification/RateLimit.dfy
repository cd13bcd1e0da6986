/** The rolling-window rate limiter (rate_limit.py).  Time is a real number handed in
    with each reading of the monotonic clock. */
module RateLimit {

  const WINDOW := 60.0

  /** No event before j is later than it. */
  ghost predicate InOrder(g: seq<real>, j: int)
    requires 0 <= j < |g|
  {
    forall i | 0 <= i < j :: g[i] <= g[j]
  }

  ghost predicate Sorted(g: seq<real>) {
    forall j | 0 <= j < |g| :: InOrder(g, j)
  }

  predicate Apart(g: seq<real>, max: nat, i: int)
    requires 0 <= i && i + max < |g|
  {
    g[i] + WINDOW <= g[i + max]
  }

  /** Any max + 1 consecutive grants span a whole window. */
  ghost predicate Spaced(g: seq<real>, max: nat) {
    forall i | 0 <= i < |g| - max :: Apart(g, max, i)
  }

  /** The number of events in the half-open window (lo, hi]. */
  function InWindow(g: seq<real>, lo: real, hi: real): nat {
    if g == [] then 0
    else InWindow(g[..|g| - 1], lo, hi) + if lo < g[|g| - 1] <= hi then 1 else 0
  }

  /** The number of events in the minute that ends now. */
  function LastMinute(g: seq<real>, now: real): nat {
    InWindow(g, now - WINDOW, now)
  }

  lemma {:induction false} RangeCount(g: seq<real>, lo: real, hi: real, i: nat, j: nat)
    requires i <= j <= |g|
    requires forall k | 0 <= k < |g| :: lo < g[k] <= hi <==> i <= k < j
    ensures InWindow(g, lo, hi) == j - i
  {
    if g == [] {
    } else if j == |g| && i < j {
      RangeCount(g[..|g| - 1], lo, hi, i, j - 1);
    } else {
      assert !(lo < g[|g| - 1] <= hi);
      RangeCount(g[..|g| - 1], lo, hi, if i == |g| then i - 1 else i, if j == |g| then j - 1 else j);
    }
  }

  lemma {:induction false} CountAtLeast(g: seq<real>, lo: real, hi: real, i: nat, j: nat)
    requires i <= j <= |g|
    requires forall k | i <= k < j :: lo < g[k] <= hi
    ensures InWindow(g, lo, hi) >= j - i
  {
    if i == j {
    } else if j == |g| {
      CountAtLeast(g[..|g| - 1], lo, hi, i, j - 1);
    } else {
      CountAtLeast(g[..|g| - 1], lo, hi, i, j);
    }
  }

  /** In a sorted history the events of a window are neighbours. */
  lemma {:induction false} Neighbours(g: seq<real>, lo: real, hi: real) returns (i: nat)
    requires Sorted(g)
    ensures i + InWindow(g, lo, hi) <= |g|
    ensures forall k | 0 <= k < |g| :: lo < g[k] <= hi <==> i <= k < i + InWindow(g, lo, hi)
  {
    if g == [] {
      i := 0;
    } else {
      var init, last := g[..|g| - 1], |g| - 1;
      assert forall k | 0 <= k < last :: init[k] == g[k];
      forall j | 0 <= j < last ensures InOrder(init, j) {
        assert InOrder(g, j);
      }
      i := Neighbours(init, lo, hi);
      var n := InWindow(init, lo, hi);
      if lo < g[last] <= hi {
        if n == 0 {
          i := last;
        } else {
          var j := if i + n < last then i + n else last;
          assert InOrder(g, j) && InOrder(g, last);
          assert g[i] <= g[j] <= g[last];
        }
      }
    }
  }

  /** The spacing of the history is the same thing as the rate limit: no window ever
      holds more than max grants. */
  lemma SpacedIsRateLimit(g: seq<real>, max: nat)
    requires Sorted(g)
    ensures Spaced(g, max) <==> forall now :: LastMinute(g, now) <= max
  {
    if Spaced(g, max) {
      forall now ensures LastMinute(g, now) <= max {
        var i := Neighbours(g, now - WINDOW, now);
        if i + max < |g| {
          assert Apart(g, max, i);
        }
      }
    }
    if forall now :: LastMinute(g, now) <= max {
      forall i | 0 <= i < |g| - max ensures Apart(g, max, i) {
        var j := i + max;
        assert LastMinute(g, g[j]) <= max;
        if g[j] < g[i] + WINDOW {
          forall k | i <= k < j ensures g[i] <= g[k] <= g[j] {
            assert InOrder(g, k) && InOrder(g, j);
          }
          CountAtLeast(g, g[j] - WINDOW, g[j], i, j + 1);
        }
      }
    }
  }

  lemma {:induction false} SpacedFar(g: seq<real>, max: nat, i: nat, n: nat)
    requires Spaced(g, max) && i + n * max < |g|
    ensures g[i] + WINDOW * n as real <= g[i + n * max]
  {
    if n == 0 {
    } else {
      assert (n - 1) * max + max == n * max;
      SpacedFar(g, max, i, n - 1);
      assert Apart(g, max, i + (n - 1) * max);
    }
  }

  lemma FullWindows(g: seq<real>, max: nat, i: nat, j: nat, n: nat)
    requires Sorted(g) && Spaced(g, max) && i <= j < |g|
    ensures i + n * max <= j ==> g[i] + WINDOW * n as real <= g[j]
  {
    if i + n * max <= j {
      SpacedFar(g, max, i, n);
      assert InOrder(g, j);
    }
  }

  /** Once the deque has let go of everything that is too old, it holds exactly the
      last minute of the history. */
  lemma DequeIsLastMinute(g: seq<real>, dropped: nat, now: real)
    requires Sorted(g) && dropped <= |g|
    requires forall i | 0 <= i < |g| :: g[i] <= now
    requires forall i | 0 <= i < dropped :: g[i] <= now - WINDOW
    requires dropped < |g| ==> g[dropped] > now - WINDOW
    ensures forall i | 0 <= i < |g| :: g[i] <= now - WINDOW <==> i < dropped
    ensures LastMinute(g, now) == |g| - dropped
  {
    forall i | 0 <= i < |g| ensures g[i] <= now - WINDOW <==> i < dropped {
      assert InOrder(g, i) && (dropped < |g| ==> InOrder(g, dropped));
    }
    RangeCount(g, now - WINDOW, now, dropped, |g|);
  }

  /** A slot taken while fewer than max are left keeps the history spaced. */
  lemma SlotKeepsSpacing(g: seq<real>, dropped: nat, now: real, max: nat)
    requires Sorted(g) && Spaced(g, max) && dropped <= |g| < dropped + max
    requires forall i | 0 <= i < |g| :: g[i] <= now
    requires forall i | 0 <= i < dropped :: g[i] <= now - WINDOW
    ensures Sorted(g + [now]) && Spaced(g + [now], max)
  {
    var h := g + [now];
    forall j | 0 <= j < |h| ensures InOrder(h, j) {
      assert j < |g| ==> InOrder(g, j);
    }
    forall i | 0 <= i < |h| - max ensures Apart(h, max, i) {
      assert i < |g| - max ==> Apart(g, max, i);
    }
  }

  /** What other callers do with the governor while one caller awaits. */
  datatype Other = TakesSlot(at: real) | ReadsRate(at: real)

  /** One pass of the acquire loop: the calls that get in first, how long after the
      earliest possible moment the lock is entered, and the time until the clock is
      read again. */
  datatype Turn = Turn(others: seq<Other>, lag: real, hold: real)

  /** The history after a caller asked for a slot. */
  function Take(g: seq<real>, max: nat, now: real): seq<real> {
    if LastMinute(g, now) < max then g + [now] else g
  }

  function Between(at: real, from: real, until: real): real {
    if at < from then from else if at > until then until else at
  }

  /** The history after other callers got in, from the last reading of the clock on. */
  function AfterOthers(g: seq<real>, others: seq<Other>, max: nat, clock: real, until: real): seq<real>
    decreases |others|
  {
    if others == [] then g
    else
      var at := Between(others[0].at, clock, until);
      AfterOthers(if others[0].TakesSlot? then Take(g, max, at) else g, others[1..], max, at, until)
  }

  /** Where a waiting caller stands before a pass: the history, the last reading of the
      clock and the moment at which it can enter the lock. */
  datatype Point = Point(grants: seq<real>, clock: real, ready: real)

  /** The history that the pass finds. */
  predicate Finds(p: Point, turn: Turn, max: nat, g: seq<real>) {
    g == AfterOthers(p.grants, turn.others, max, p.clock, p.ready + turn.lag)
  }

  /** What the pass makes of the history that it finds. */
  ghost predicate Passed(p: Point, turn: Turn, max: nat, granted: bool, after: seq<real>) {
    forall g | Finds(p, turn, max, g) ::
      && (granted <==> LastMinute(g, p.ready + turn.lag) < max)
      && after == if granted then g + [p.ready + turn.lag] else g
  }

  /** A pass from p that ends without a slot and before the deadline, and leads to q: the
      caller sleeps until the oldest of the last max grants is a minute old. */
  ghost predicate Follows(p: Point, turn: Turn, max: nat, deadline: real, q: Point) {
    var at := p.ready + turn.lag + turn.hold;
    && Passed(p, turn, max, false, q.grants) && at < deadline
    && q.clock == p.ready + turn.lag && |q.grants| >= max >= 1
    && q.ready == at + SleepFor(q.grants[|q.grants| - max], deadline, at)
  }

  ghost predicate Linked(trace: seq<Point>, turns: nat -> Turn, max: nat, deadline: real, k: nat) {
    k + 1 < |trace| && Follows(trace[k], turns(k), max, deadline, trace[k + 1])
  }

  /** The first n passes of a call, in order. */
  ghost predicate Chain(trace: seq<Point>, turns: nat -> Turn, max: nat, deadline: real, n: nat) {
    n < |trace| && forall k | 0 <= k < n :: Linked(trace, turns, max, deadline, k)
  }

  /** A call from p that has gone on n times and now stands at q. */
  ghost predicate Waited(p: Point, trace: seq<Point>, turns: nat -> Turn, max: nat, deadline: real, n: nat, q: Point) {
    |trace| == n + 1 && trace[0] == p && trace[n] == q && Chain(trace, turns, max, deadline, n)
  }

  lemma OneMorePass(p: Point, trace: seq<Point>, turns: nat -> Turn, max: nat, deadline: real, n: nat,
                    at: Point, q: Point)
    requires Waited(p, trace, turns, max, deadline, n, at) && Follows(at, turns(n), max, deadline, q)
    ensures Waited(p, trace + [q], turns, max, deadline, n + 1, q)
  {
    forall k | 0 <= k < n + 1 ensures Linked(trace + [q], turns, max, deadline, k) {
      if k < n {
        assert Linked(trace, turns, max, deadline, k);
      }
    }
  }

  /** Nobody else calls, and only sleeping takes time. */
  ghost predicate Undisturbed(turns: nat -> Turn) {
    forall k :: turns(k) == QUIET
  }

  const QUIET := Turn([], 0.0, 0.0)

  /** A window that was full when it was seen stays full until its oldest grant is a
      minute old, if nobody takes a slot. */
  ghost predicate FullUntil(g: seq<real>, from: real, until: real, max: nat) {
    forall now | from <= now < until :: LastMinute(g, now) >= max
  }

  /** There is no room before the moment `at`, and then there is, or else it is the deadline. */
  ghost predicate FirstChance(g: seq<real>, start: real, at: real, granted: bool, max: nat, deadline: real) {
    at <= deadline && FullUntil(g, start, at, max) && (granted <==> LastMinute(g, at) < max)
  }

  lemma StaysFull(g: seq<real>, from: real, max: nat)
    requires Sorted(g) && |g| >= max >= 1
    requires forall i | 0 <= i < |g| :: g[i] <= from
    ensures FullUntil(g, from, g[|g| - max] + WINDOW, max)
  {
    forall now | from <= now < g[|g| - max] + WINDOW ensures LastMinute(g, now) >= max {
      forall k | |g| - max <= k < |g| ensures g[|g| - max] <= g[k] {
        assert InOrder(g, k);
      }
      CountAtLeast(g, now - WINDOW, now, |g| - max, |g|);
    }
  }

  lemma AlonePass(p: Point, turn: Turn, max: nat, deadline: real, q: Point)
    requires Follows(p, turn, max, deadline, q) && turn == QUIET
    requires Sorted(p.grants) && forall i | 0 <= i < |p.grants| :: p.grants[i] <= p.ready
    ensures q.grants == p.grants && p.ready <= q.ready <= deadline && FullUntil(p.grants, p.ready, q.ready, max)
  {
    assert Finds(p, turn, max, p.grants);
    StaysFull(p.grants, p.ready, max);
  }

  lemma {:induction false} AlonePasses(trace: seq<Point>, turns: nat -> Turn, max: nat, deadline: real, n: nat)
    requires Chain(trace, turns, max, deadline, n) && Undisturbed(turns)
    requires Sorted(trace[0].grants) && forall i | 0 <= i < |trace[0].grants| :: trace[0].grants[i] <= trace[0].ready
    ensures var p, q := trace[0], trace[n];
            q.grants == p.grants && p.ready <= q.ready && FullUntil(p.grants, p.ready, q.ready, max)
    ensures n > 0 ==> trace[n].ready <= deadline
  {
    if n > 0 {
      AlonePasses(trace, turns, max, deadline, n - 1);
      assert Linked(trace, turns, max, deadline, n - 1);
      AlonePass(trace[n - 1], turns(n - 1), max, deadline, trace[n]);
    }
  }

  /** The pass from p is the last one. */
  ghost predicate Ends(p: Point, turn: Turn, max: nat, granted: bool, at: real, entered: real, after: seq<real>) {
    && Passed(p, turn, max, granted, after)
    && entered == p.ready + turn.lag && at == if granted then entered else entered + turn.hold
  }

  /** If nobody else calls, the caller gets a slot at the first moment that has room for
      one, or else waits for its deadline. */
  lemma AloneCall(trace: seq<Point>, turns: nat -> Turn, max: nat, deadline: real, n: nat,
                  granted: bool, at: real, entered: real, after: seq<real>)
    requires |trace| > n && Waited(trace[0], trace, turns, max, deadline, n, trace[n])
    requires Ends(trace[n], turns(n), max, granted, at, entered, after)
    requires var p := trace[0];
             p.ready <= deadline && Sorted(p.grants) && forall i | 0 <= i < |p.grants| :: p.grants[i] <= p.ready
    ensures Undisturbed(turns) ==> FirstChance(trace[0].grants, trace[0].ready, at, granted, max, deadline)
  {
    if Undisturbed(turns) {
      AlonePasses(trace, turns, max, deadline, n);
      assert Finds(trace[n], turns(n), max, trace[n].grants);
    }
  }

  lemma NothingFollows(p: Point, turn: Turn, max: nat, deadline: real, q: Point)
    requires p.ready >= deadline && turn.lag >= 0.0 && turn.hold >= 0.0
    ensures !Follows(p, turn, max, deadline, q)
  {
  }

  lemma NothingLinked(trace: seq<Point>, turns: nat -> Turn, max: nat, deadline: real)
    requires trace != [] && trace[0].ready >= deadline && turns(0).lag >= 0.0 && turns(0).hold >= 0.0
    ensures !Linked(trace, turns, max, deadline, 0)
  {
    if |trace| > 1 {
      NothingFollows(trace[0], turns(0), max, deadline, trace[1]);
    }
  }

  /** A caller that may not wait has one pass. */
  lemma NoWait(trace: seq<Point>, turns: nat -> Turn, max: nat, deadline: real, n: nat)
    requires |trace| > n && Waited(trace[0], trace, turns, max, deadline, n, trace[n])
    requires trace[0].ready >= deadline && turns(0).lag >= 0.0 && turns(0).hold >= 0.0
    ensures n == 0
  {
    NothingLinked(trace, turns, max, deadline);
  }

  function SleepFor(oldest: real, deadline: real, now: real): (nap: real)
    ensures nap >= 0.0
  {
    var until := if oldest + WINDOW < deadline then oldest + WINDOW else deadline;
    if until - now > 0.0 then until - now else 0.0
  }

  /** What a waiting caller has seen: after how many passes, and which grant was the
      oldest of the last minute at its first and at its latest pass. */
  datatype Wait = Wait(first: nat, seen: nat, oldest: real, passes: nat)

  /** The oldest grant seen has moved on by one at least with each pass. */
  ghost predicate Waiting(g: seq<real>, dropped: nat, start: real, w: Wait) {
    && w.first + w.passes - 1 <= w.seen <= dropped && w.first <= w.seen < |g|
    && g[w.seen] == w.oldest && start - WINDOW < g[w.first]
  }

  function More(w: Wait, dropped: nat, oldest: real): Wait {
    Wait(if w.passes == 0 then dropped else w.first, dropped, oldest, w.passes + 1)
  }

  /** One more pass without a slot, at `entered`, when the wait since the last one was
      for the oldest event seen then. */
  lemma WaitsOn(g: seq<real>, h: seq<real>, dropped: nat, left: nat, start: real, entered: real, w: Wait)
    requires Sorted(h) && g <= h && dropped <= left < |h| && start <= entered && h[left] > entered - WINDOW
    requires w.passes > 0 ==> Waiting(g, dropped, start, w) && w.oldest + WINDOW <= entered
    requires forall i | 0 <= i < |g| :: g[i] <= entered - WINDOW ==> i < left
    ensures Waiting(h, left, start, More(w, left, h[left]))
  {
    assert w.passes > 0 ==> h[w.first] == g[w.first] && g[w.seen] <= entered - WINDOW;
  }

  /** When m * max passes have failed, the next nap ends at the deadline. */
  lemma LastNap(g: seq<real>, max: nat, m: nat, dropped: nat, start: real, w: Wait, deadline: real, now: real)
    requires Sorted(g) && Spaced(g, max) && Waiting(g, dropped, start, w) && w.passes > 0
    requires deadline <= start + WINDOW * m as real && now < deadline
    ensures now + SleepFor(w.oldest, deadline, now) < deadline ==> w.passes <= m * max
  {
    FullWindows(g, max, w.first, w.seen, m);
  }

  class RateLimitGovernor {
    const max: nat
    const wait: real
    var events: seq<real>       // the deque
    ghost var grants: seq<real> // every slot ever taken
    ghost var dropped: nat      // how many of them the deque has let go
    var clock: real             // latest reading of the clock

    ghost predicate Valid()
      reads this
    {
      && 1 <= max && 0.0 <= wait
      && dropped <= |grants| && events == grants[dropped..] && |events| <= max
      && Sorted(grants) && Spaced(grants, max)
      && (forall i | 0 <= i < |grants| :: grants[i] <= clock)
      && (forall i | 0 <= i < dropped :: grants[i] <= clock - WINDOW)
    }

    constructor (max: int, wait: real, now: real)
      requires max >= 1 && wait >= 0.0
      ensures Valid() && this.max == max && this.wait == wait && grants == [] && clock == now
    {
      this.max, this.wait, events := max, wait, [];
      grants, dropped, clock := [], 0, now;
    }

    /** The checks of __init__; null is the ValueError. */
    static method Create(max: int, wait: real, now: real) returns (g: RateLimitGovernor?)
      ensures g == null <==> max < 1 || wait < 0.0
      ensures g != null ==> fresh(g) && g.Valid() && g.max == max && g.wait == wait && g.grants == [] && g.clock == now
    {
      if max < 1 || wait < 0.0 {
        return null;
      }
      g := new RateLimitGovernor(max, wait, now);
    }

    /** _trim_locked. */
    method Trim(now: real)
      requires Valid() && clock <= now
      modifies this
      ensures Valid() && grants == old(grants) && clock == now
      ensures forall i | 0 <= i < |grants| :: grants[i] <= now - WINDOW <==> i < dropped
      ensures old(dropped) <= dropped
      ensures LastMinute(grants, now) == |events|
    {
      assert forall i | 0 <= i < |grants| :: grants[i] <= now;
      clock := now;
      while events != [] && events[0] <= now - WINDOW
        invariant grants == old(grants) && clock == now
        invariant old(dropped) <= dropped <= |grants| && events == grants[dropped..]
        invariant forall i | 0 <= i < dropped :: grants[i] <= now - WINDOW
        decreases |events|
      {
        events, dropped := events[1..], dropped + 1;
      }
      DequeIsLastMinute(grants, dropped, now);
    }

    /** The part of acquire that holds the lock: a slot is taken exactly if fewer
        than max slots of the whole history lie in the last minute. */
    method TryTake(now: real) returns (granted: bool, oldest: real)
      requires Valid() && clock <= now
      modifies this
      ensures Valid() && clock == now && old(dropped) <= dropped
      ensures granted <==> LastMinute(old(grants), now) < max
      ensures grants == if granted then old(grants) + [now] else old(grants)
      ensures !granted ==> dropped < |grants| && oldest == grants[dropped] > now - WINDOW
      ensures forall i | 0 <= i < |old(grants)| :: old(grants)[i] <= now - WINDOW ==> i < dropped
      ensures !granted ==> LastMinute(grants, now) == max && |grants| == dropped + max
    {
      Trim(now);
      oldest := 0.0;
      if |events| < max {
        SlotKeepsSpacing(grants, dropped, now, max);
        events, grants := events + [now], grants + [now];
        granted := true;
      } else {
        oldest := events[0];
        granted := false;
      }
    }

    /** current_rate counts over the whole history although only the deque is kept. */
    method CurrentRate(now: real) returns (n: nat)
      requires Valid() && clock <= now
      modifies this
      ensures Valid() && clock == now && grants == old(grants) && old(dropped) <= dropped
      ensures n == LastMinute(grants, now)
    {
      Trim(now);
      n := |events|;
    }

    /** Other callers run, at any moments between the last reading and `until`. */
    method OthersRun(others: seq<Other>, until: real)
      requires Valid() && clock <= until
      modifies this
      ensures Valid() && clock <= until && old(clock) <= clock
      ensures grants == AfterOthers(old(grants), others, max, old(clock), until)
      ensures old(grants) <= grants && old(dropped) <= dropped
    {
      assert others[0..] == others;
      for i := 0 to |others|
        invariant Valid() && old(clock) <= clock <= until
        invariant AfterOthers(grants, others[i..], max, clock, until)
               == AfterOthers(old(grants), others, max, old(clock), until)
        invariant old(grants) <= grants && old(dropped) <= dropped
      {
        var at := Between(others[i].at, clock, until);
        assert others[i..][0] == others[i] && others[i..][1..] == others[i + 1..];
        if others[i].TakesSlot? {
          var granted, oldest := TryTake(at);
        } else {
          var n := CurrentRate(at);
        }
      }
    }

    /** Up to the release of the lock: other callers get in first, then a slot is taken
        if there is one. */
    method Pass(ready: real, turn: Turn) returns (granted: bool, oldest: real, entered: real)
      requires Valid() && clock <= ready && turn.lag >= 0.0
      modifies this
      ensures Valid() && old(grants) <= grants && old(dropped) <= dropped
      ensures clock == entered == ready + turn.lag
      ensures granted ==> grants != [] && grants[|grants| - 1] == entered
      ensures !granted ==> LastMinute(grants, entered) == max && |grants| == dropped + max
      ensures !granted ==> oldest == grants[dropped] > entered - WINDOW
      ensures forall i | 0 <= i < |old(grants)| :: old(grants)[i] <= entered - WINDOW ==> i < dropped
      ensures Passed(Point(old(grants), old(clock), ready), turn, max, granted, grants)
      ensures turn.others == [] ==> grants == if granted then old(grants) + [entered] else old(grants)
      ensures turn.others == [] ==> (granted <==> LastMinute(old(grants), entered) < max)
    {
      entered := ready + turn.lag;
      OthersRun(turn.others, entered);
      granted, oldest := TryTake(entered);
    }

    /** Where the loop of acquire stands when it is about to sleep or to start. */
    ghost predicate InLoop(w: Wait, start: real, deadline: real, ready: real, m: nat)
      reads this
    {
      && Valid() && clock <= ready && start <= ready <= deadline
      && (w.passes > 0 ==> Waiting(grants, dropped, start, w) && (w.oldest + WINDOW <= ready || deadline <= ready))
      && w.passes <= m * max + 1 && (ready < deadline ==> w.passes <= m * max)
    }

    /** The body of the loop, from the moment `ready` at which it can enter the lock
        (other callers may get in first) to the end of its sleep. */
    method Attempt(start: real, deadline: real, ready: real, turn: Turn, ghost m: nat, ghost w: Wait)
      returns (done: bool, granted: bool, at: real, entered: real, next: real, ghost u: Wait)
      requires InLoop(w, start, deadline, ready, m) && turn.lag >= 0.0 && turn.hold >= 0.0
      requires deadline <= start + WINDOW * m as real
      modifies this
      ensures Valid() && old(grants) <= grants && entered == ready + turn.lag <= at && u.passes == w.passes + 1
      ensures granted ==> done && at == entered && grants != [] && grants[|grants| - 1] == at
      ensures done && !granted ==> at >= deadline && LastMinute(grants, entered) == max
      ensures !done ==> InLoop(u, start, deadline, next, m)
      ensures Ends(Point(old(grants), old(clock), ready), turn, max, granted, at, entered, grants)
      ensures !done ==> Follows(Point(old(grants), old(clock), ready), turn, max, deadline, Point(grants, clock, next))
    {
      ghost var g, d := grants, dropped;
      var oldest;
      granted, oldest, entered := Pass(ready, turn);
      at := if granted then entered else entered + turn.hold;
      done, next, u := granted || at >= deadline, ready, More(w, dropped, oldest);
      if !done {
        next := at + SleepFor(oldest, deadline, at);
        WaitsOn(g, grants, d, dropped, start, entered, w);
        LastNap(grants, max, m, dropped, start, u, deadline, at);
      }
    }

    /** The loop of acquire. */
    method Queue(start: real, deadline: real, turns: nat -> Turn, ghost m: nat)
      returns (granted: bool, at: real, entered: real, passes: nat, ghost trace: seq<Point>)
      requires Valid() && clock <= start <= deadline && deadline <= start + WINDOW * m as real
      requires forall k :: turns(k).lag >= 0.0 && turns(k).hold >= 0.0
      modifies this
      ensures Valid() && old(grants) <= grants && start <= entered <= at
      ensures 1 <= passes <= m * max + 2
      ensures |trace| == passes
      ensures Waited(Point(old(grants), old(clock), start), trace, turns, max, deadline, passes - 1, trace[passes - 1])
      ensures Ends(trace[passes - 1], turns(passes - 1), max, granted, at, entered, grants)
      ensures granted ==> grants != [] && grants[|grants| - 1] == at
      ensures !granted ==> at >= deadline && LastMinute(grants, entered) == max
      ensures entered <= deadline + turns(passes - 1).lag
    {
      var ready, done := start, false;
      passes := 0;
      ghost var w, p := Wait(0, 0, 0.0, 0), Point(grants, clock, start);
      ghost var q := p;
      trace := [p];
      while true
        invariant InLoop(w, start, deadline, ready, m) && passes == w.passes && old(grants) <= grants
        invariant q == Point(grants, clock, ready) && Waited(p, trace, turns, max, deadline, passes, q)
        decreases m * max + 2 - passes
      {
        done, granted, at, entered, ready, w := Attempt(start, deadline, ready, turns(passes), m, w);
        passes := passes + 1;
        if done {
          return;
        }
        OneMorePass(p, trace, turns, max, deadline, passes - 1, q, Point(grants, clock, ready));
        q := Point(grants, clock, ready);
        trace := trace + [q];
      }
    }

    /** acquire, called at `start`, with any number of other callers getting in at each
        pass.  If the queue wait is at most m windows, it ends within m * max + 2
        passes, with a slot or with an error raised no earlier than its deadline and
        only after it saw a full window; and it enters the lock for the last time no
        later than the deadline, but for the lag.  If nobody else calls, it ends with a
        slot at the first moment that has room for one, or else at its deadline.  The
        trace tells the passes: each follows from the one before by the rules of the loop. */
    method Acquire(start: real, turns: nat -> Turn, ghost m: nat)
      returns (granted: bool, at: real, entered: real, passes: nat, ghost trace: seq<Point>)
      requires Valid() && clock <= start && wait <= WINDOW * m as real
      requires forall k :: turns(k).lag >= 0.0 && turns(k).hold >= 0.0
      modifies this
      ensures Valid() && old(grants) <= grants && start <= entered <= at
      ensures 1 <= passes <= m * max + 2 && (wait == 0.0 ==> passes == 1)
      ensures |trace| == passes
      ensures Waited(Point(old(grants), old(clock), start), trace, turns, max, start + wait,
                     passes - 1, trace[passes - 1])
      ensures Ends(trace[passes - 1], turns(passes - 1), max, granted, at, entered, grants)
      ensures granted ==> grants != [] && grants[|grants| - 1] == at
      ensures !granted ==> at >= start + wait && LastMinute(grants, entered) == max
      ensures entered <= start + wait + turns(passes - 1).lag
      ensures Undisturbed(turns) ==> FirstChance(old(grants), start, at, granted, max, start + wait)
    {
      var deadline := start + wait;
      granted, at, entered, passes, trace := Queue(start, deadline, turns, m);
      AloneCall(trace, turns, max, deadline, passes - 1, granted, at, entered, grants);
      if wait == 0.0 {
        NoWait(trace, turns, max, deadline, passes - 1);
      }
    }
  }
}
