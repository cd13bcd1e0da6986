/** The bound on the sessions of one device is reached: the busy check does not see the
    starts that are still in flight. */
module SidecarOverlap {
  import opened Sidecar

  function Ids(m: nat, n: nat): (s: set<Id>)
    ensures forall i :: i in s <==> m <= i < n
    ensures |s| == if m < n then n - m else 0
    decreases n - m
  {
    if m >= n then {} else {m} + Ids(m + 1, n)
  }

  function Entries(m: nat, device: Device): (e: map<Id, Entry>)
    ensures e.Keys == Ids(0, m) && forall i | i in e :: e[i] == Entry(device, Active)
  {
    if m == 0 then map[] else Entries(m - 1, device)[m - 1 := Entry(device, Active)]
  }

  function Starts(m: nat, n: nat, device: Device): (s: map<Id, Start>)
    ensures s.Keys == Ids(m, n) && forall i | i in s :: s[i] == Start(i, device)
  {
    if m >= n then map[] else Starts(m, n - 1, device)[n - 1 := Start(n - 1, device)]
  }

  function Replies(m: nat): (r: map<Id, Reply>)
    ensures r.Keys == Ids(0, m)
  {
    if m == 0 then map[] else Replies(m - 1)[m - 1 := Created(m - 1)]
  }

  /** n POSTs for the device have passed the busy check, and the first m of them have
      their session. */
  function At(n: nat, m: nat, device: Device): Bridge {
    Bridge(Entries(m, device), Starts(m, n, device), map[], multiset{}, Replies(m), Ids(0, n))
  }

  lemma OneMore(n: nat, device: Device)
    ensures Starts(0, n, device)[n := Start(n, device)] == Starts(0, n + 1, device)
    ensures Ids(0, n) + {n} == Ids(0, n + 1)
  {
  }

  lemma CanPost(n: nat, device: Device)
    ensures Enabled(At(n, 0, device), PostArrives(n, device, "t", n)) && !Busy(At(n, 0, device), device)
  {
  }

  lemma PostFollows(n: nat, device: Device)
    requires device != ""
    ensures var e := PostArrives(n, device, "t", n);
            Enabled(At(n, 0, device), e) && Step(At(n, 0, device), e) == At(n + 1, 0, device)
  {
    CanPost(n, device);
    OneMore(n, device);
  }

  lemma OneLess(n: nat, m: nat, device: Device)
    requires m < n
    ensures Starts(m, n, device) - {m} == Starts(m + 1, n, device)
  {
  }

  lemma StartFollows(n: nat, m: nat, device: Device)
    requires m < n
    ensures var e := FactoryStarts(m, Active, false);
            Enabled(At(n, m, device), e) && Step(At(n, m, device), e) == At(n, m + 1, device)
  {
    var b := At(n, m, device);
    OneLess(n, m, device);
    assert b.timers == multiset{} && b.starting[m] == Start(m, device);
  }

  lemma Counts(n: nat, m: nat, device: Device)
    requires m <= n
    ensures |StartsFor(At(n, m, device), device)| == n - m && |ActiveFor(At(n, m, device), device)| == m
  {
    assert StartsFor(At(n, m, device), device) == Ids(m, n);
    assert ActiveFor(At(n, m, device), device) == Ids(0, m);
  }

  lemma OneFirst(b: Bridge, e: Event, es: seq<Event>, device: Device, k: nat) returns (all: seq<Event>)
    requires Enabled(b, e) && Run(Step(b, e), es) && |StartsFor(b, device)| <= k
    requires StartsOverlapAtMost(Step(b, e), es, device, k)
    ensures Run(b, all) && Exec(b, all) == Exec(Step(b, e), es) && StartsOverlapAtMost(b, all, device, k)
  {
    all := [e] + es;
    assert all[1..] == es;
  }

  lemma {:induction false} AllStart(k: nat, m: nat, device: Device) returns (es: seq<Event>)
    requires m <= k
    ensures Run(At(k, m, device), es) && Exec(At(k, m, device), es) == At(k, k, device)
    ensures StartsOverlapAtMost(At(k, m, device), es, device, k)
    decreases k - m
  {
    Counts(k, m, device);
    if m == k {
      es := [];
    } else {
      StartFollows(k, m, device);
      es := AllStart(k, m + 1, device);
      es := OneFirst(At(k, m, device), FactoryStarts(m, Active, false), es, device, k);
    }
  }

  lemma {:induction false} AllPost(k: nat, n: nat, device: Device) returns (es: seq<Event>)
    requires n <= k && device != ""
    ensures Run(At(n, 0, device), es) && Exec(At(n, 0, device), es) == At(k, k, device)
    ensures StartsOverlapAtMost(At(n, 0, device), es, device, k)
    decreases k - n
  {
    Counts(n, 0, device);
    if n == k {
      es := AllStart(k, 0, device);
    } else {
      PostFollows(n, device);
      es := AllPost(k, n + 1, device);
      es := OneFirst(At(n, 0, device), PostArrives(n, device, "t", n), es, device, k);
    }
  }

  /** For every device and every k there is a run from the start on which never more than
      k starts for it are in flight and which ends with k active sessions of that device:
      the bound of DeviceExclusive cannot be improved. */
  lemma OverlapIsReached(device: Device, k: nat)
    requires device != ""
    ensures exists es: seq<Event> ::
              Run(EMPTY, es) && StartsOverlapAtMost(EMPTY, es, device, k) && |ActiveFor(Exec(EMPTY, es), device)| == k
  {
    var es := AllPost(k, 0, device);
    Counts(k, k, device);
    assert At(0, 0, device) == EMPTY;
  }
}
