/** The bound on the passes of one acquire call is reached: a caller can lose the race for
    the slot that it waited for again and again, until its deadline. */
module RateLimitLongest {
  import opened RateLimit

  /** Half the distance of two grants, when max of them are spread over a minute. */
  function Half(max: nat): real
    requires max >= 1
  {
    30.0 / max as real
  }

  /** The moment of grant i. */
  function Moment(i: nat, max: nat): real
    requires max >= 1
  {
    (2 * i + 1) as real * Half(max)
  }

  lemma HalfTimes(n: nat, max: nat)
    requires max >= 1
    ensures Half(max) > 0.0 && (2 * (n * max)) as real * Half(max) == WINDOW * n as real
  {
    assert max as real * Half(max) == 30.0;
    assert (2 * (n * max)) as real == 2.0 * n as real * max as real;
    assert 2.0 * n as real * max as real * Half(max) == 2.0 * n as real * (max as real * Half(max));
  }

  lemma MinuteLater(i: nat, max: nat)
    requires max >= 1
    ensures Moment(i + max, max) == Moment(i, max) + WINDOW
  {
    HalfTimes(1, max);
    assert (2 * (i + max) + 1) as real == (2 * i + 1) as real + (2 * max) as real;
  }

  lemma Product(a: real, b: real, h: real)
    requires h > 0.0
    ensures a * h < b * h <==> a < b
  {
    if a < b {
      assert (b - a) * h > 0.0;
    } else {
      assert (a - b) * h >= 0.0;
    }
  }

  lemma Ascending(i: nat, j: nat, max: nat)
    requires max >= 1
    ensures Moment(i, max) < Moment(j, max) <==> i < j
  {
    HalfTimes(1, max);
    Product((2 * i + 1) as real, (2 * j + 1) as real, Half(max));
  }

  /** The first n * max of them come within n minutes. */
  lemma Within(i: nat, n: nat, max: nat)
    requires max >= 1
    ensures Moment(i, max) < WINDOW * n as real <==> i < n * max
    ensures Moment(i, max) != WINDOW * n as real && Moment(i, max) > 0.0
  {
    HalfTimes(n, max);
    Product((2 * i + 1) as real, (2 * (n * max)) as real, Half(max));
    Product((2 * (n * max)) as real, (2 * i + 1) as real, Half(max));
    Product(0.0, (2 * i + 1) as real, Half(max));
  }

  function Grants(n: nat, max: nat): (g: seq<real>)
    requires max >= 1
    ensures |g| == n && forall i | 0 <= i < n :: g[i] == Moment(i, max)
  {
    seq(n, i requires 0 <= i < n => Moment(i, max))
  }

  /** How many of the first n lie in the minute that ends at a moment, when those before
      `gone` are too old. */
  lemma InLastMinute(n: nat, gone: nat, now: real, max: nat)
    requires max >= 1 && gone <= n
    requires gone > 0 ==> Moment(gone - 1, max) <= now - WINDOW
    requires gone < n ==> now - WINDOW < Moment(gone, max) && Moment(n - 1, max) <= now
    ensures LastMinute(Grants(n, max), now) == n - gone
  {
    var g := Grants(n, max);
    forall i | 0 <= i < n ensures now - WINDOW < g[i] <= now <==> gone <= i < n {
      Ascending(i, n - 1, max);
      Ascending(n - 1, i, max);
      if i < gone {
        Ascending(i, gone - 1, max);
        Ascending(gone - 1, i, max);
      } else {
        Ascending(gone, i, max);
        Ascending(i, gone, max);
      }
    }
    RangeCount(g, now - WINDOW, now, gone, n);
  }

  // ---- the call ----------------------------------------------------------------------

  function Deadline(m: nat): real {
    WINDOW + WINDOW * m as real
  }

  /** Another caller takes the slot just when it gets free. */
  function Script(max: nat, m: nat): nat -> Turn
    requires max >= 1
  {
    (k: nat) => if 1 <= k <= m * max then Turn([TakesSlot(Moment(k - 1 + max, max))], 0.0, 0.0) else QUIET
  }

  /** When pass k can enter the lock. */
  function Ready(k: nat, max: nat, m: nat): real
    requires max >= 1
  {
    if k == 0 then WINDOW else if k <= m * max then Moment(k - 1 + max, max) else Deadline(m)
  }

  predicate Expected(p: Point, k: nat, max: nat, m: nat)
    requires max >= 1
  {
    && p.grants == Grants(if k == 0 then max else k - 1 + max, max)
    && p.ready == Ready(k, max, m) && p.clock <= p.ready
  }

  function Least(k: nat, n: nat): nat {
    if k <= n then k else n
  }

  /** What pass k finds in the lock. */
  function Then(k: nat, max: nat, m: nat): seq<real>
    requires max >= 1
  {
    Grants(Least(k, m * max) + max, max)
  }

  lemma OneMoreGrant(n: nat, max: nat)
    requires max >= 1
    ensures Grants(n, max) + [Moment(n, max)] == Grants(n + 1, max)
  {}

  lemma SlotIsTaken(k: nat, max: nat, m: nat)
    requires max >= 1 && 1 <= k <= m * max
    ensures Take(Grants(k - 1 + max, max), max, Moment(k - 1 + max, max)) == Grants(k + max, max)
  {
    var now := Moment(k - 1 + max, max);
    MinuteLater(k - 1, max);
    Ascending(k - 1, k, max);
    Ascending(k - 2 + max, k - 1 + max, max);
    InLastMinute(k - 1 + max, k, now, max);
    OneMoreGrant(k - 1 + max, max);
  }

  lemma OneOther(g: seq<real>, at: real, max: nat, clock: real)
    requires clock <= at
    ensures AfterOthers(g, [TakesSlot(at)], max, clock, at) == Take(g, max, at)
  {
    assert [TakesSlot(at)][1..] == [];
  }

  lemma PassFinds(p: Point, k: nat, max: nat, m: nat)
    requires max >= 1 && k <= m * max + 1 && Expected(p, k, max, m)
    ensures Finds(p, Script(max, m)(k), max, Then(k, max, m))
  {
    if 1 <= k <= m * max {
      OneOther(p.grants, p.ready, max, p.clock);
      SlotIsTaken(k, max, m);
    }
  }

  lemma PassIsFull(k: nat, max: nat, m: nat)
    requires max >= 1 && m >= 1 && k <= m * max + 1
    ensures LastMinute(Then(k, max, m), Ready(k, max, m)) == max
    ensures k <= m * max <==> Ready(k, max, m) < Deadline(m)
  {
    var n := Least(k, m * max);
    var now := Ready(k, max, m);
    Within(max - 1, 1, max);
    Within(0, 1, max);
    if k == 0 {
      InLastMinute(max, 0, now, max);
    } else if k <= m * max {
      MinuteLater(k - 1, max);
      Ascending(k - 1, k, max);
      Within(k - 1, m, max);
      InLastMinute(k + max, k, now, max);
    } else {
      Within(n - 1, m, max);
      Within(n, m, max);
      MinuteLater(n - 1, max);
      InLastMinute(n + max, n, now, max);
    }
  }

  lemma NextIsExpected(p: Point, k: nat, max: nat, m: nat, q: Point)
    requires max >= 1 && m >= 1 && k <= m * max && Expected(p, k, max, m)
    requires Follows(p, Script(max, m)(k), max, Deadline(m), q)
    ensures Expected(q, k + 1, max, m)
  {
    PassFinds(p, k, max, m);
    assert q.grants == Then(k, max, m);
    assert q.grants[|q.grants| - max] == Moment(k, max);
    MinuteLater(k, max);
    Within(k, m, max);
    Within(k, 1, max);
    if k > 0 {
      Ascending(k - 1 + max, k + max, max);
      Within(k - 1, m, max);
      MinuteLater(k - 1, max);
    }
  }

  lemma {:induction false} TraceIsExpected(trace: seq<Point>, max: nat, m: nat, n: nat, k: nat)
    requires max >= 1 && m >= 1 && k <= n && k <= m * max + 1
    requires Chain(trace, Script(max, m), max, Deadline(m), n) && Expected(trace[0], 0, max, m)
    ensures Expected(trace[k], k, max, m)
  {
    if k > 0 {
      TraceIsExpected(trace, max, m, n, k - 1);
      assert Linked(trace, Script(max, m), max, Deadline(m), k - 1);
      NextIsExpected(trace[k - 1], k - 1, max, m, trace[k]);
    }
  }

  /** The call that meets this script takes as many passes as a call can. */
  lemma AllPasses(trace: seq<Point>, max: nat, m: nat, passes: nat,
                  granted: bool, at: real, entered: real, after: seq<real>)
    requires max >= 1 && m >= 1 && 1 <= passes <= m * max + 2
    requires |trace| == passes
    requires Waited(trace[0], trace, Script(max, m), max, Deadline(m), passes - 1, trace[passes - 1])
    requires Expected(trace[0], 0, max, m)
    requires Ends(trace[passes - 1], Script(max, m)(passes - 1), max, granted, at, entered, after)
    requires !granted ==> at >= Deadline(m)
    ensures passes == m * max + 2 && !granted && at == Deadline(m)
  {
    var k := passes - 1;
    TraceIsExpected(trace, max, m, k, k);
    PassFinds(trace[k], k, max, m);
    PassIsFull(k, max, m);
    assert !granted;
  }

  /** A minute with all its slots taken, evenly spread. */
  method FullMinute(g: RateLimitGovernor)
    requires g.Valid() && g.grants == [] && g.clock <= 0.0
    modifies g
    ensures g.Valid() && g.grants == Grants(g.max, g.max) && g.clock <= WINDOW
  {
    Within(0, 1, g.max);
    for i := 0 to g.max
      invariant g.Valid() && g.grants == Grants(i, g.max)
      invariant g.clock <= if i == 0 then 0.0 else Moment(i - 1, g.max)
    {
      Within(i, 1, g.max);
      Within(0, 1, g.max);
      if i > 0 {
        Ascending(i - 1, i, g.max);
      }
      InLastMinute(i, 0, Moment(i, g.max), g.max);
      OneMoreGrant(i, g.max);
      var granted, oldest := g.TryTake(Moment(i, g.max));
    }
    Within(g.max - 1, 1, g.max);
  }

  /** For every limit and every wait of m minutes there is a call that ends at its
      deadline, without a slot, in m * max + 2 passes: the bound of Acquire cannot be
      improved. */
  method LongestWait(max: nat, m: nat) returns (granted: bool, at: real, passes: nat)
    requires max >= 1 && m >= 1
    ensures passes == m * max + 2 && !granted && at == Deadline(m)
  {
    var g := new RateLimitGovernor(max, WINDOW * m as real, 0.0);
    FullMinute(g);
    var entered;
    ghost var trace;
    granted, at, entered, passes, trace := g.Acquire(WINDOW, Script(max, m), m);
    AllPasses(trace, max, m, passes, granted, at, entered, g.grants);
  }
}
