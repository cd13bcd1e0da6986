/** The capacity bound is reached: for every limit and every number of simultaneous
    callers there is a run that ends with that many sessions. */
module LiveStreamOvershoot {
  import opened Common
  import SC = Sidecar
  import opened LiveStream
  import opened LiveStreamCapacity
  import opened LiveStreamOwnership
  import opened LiveStreamCreates

  /** A device of its own for each create. */
  function Camera(t: Id): Device {
    seq(t + 1, i => 'c')
  }

  ghost predicate Unserved(s: State, t: Id) {
    forall id | id in s.sidecar.sessions :: |s.sidecar.sessions[id].device| != t + 1
  }

  /** Nothing is on its way to the sidecar, all ids are below top, and whoever is
      pending has yet to load the token, for a device that has no session. */
  ghost predicate Calm(s: State, top: Id) {
    && KeysUsed(s) && (forall x | x in s.used :: x < top)
    && s.inbox == map[] && s.sidecar.starting == map[] && s.sidecar.stopping == map[]
    && (forall r | r in s.sidecar.replies :: r < top) && (forall b | b in s.sidecar.issued :: b < top)
    && (forall id | id in s.sidecar.sessions :: |s.sidecar.sessions[id].device| <= top)
    && (forall t | t in Pending(s) :: s.tasks[t] == LoadingToken(Camera(t)) && Unserved(s, t))
  }

  // ---- one create, step by step -------------------------------------------------------

  function Call(t: Id, top: Id): Create {
    Create(t, Camera(t), "t", top, top, top + 1)
  }

  lemma CallIsNew(s: State, t: Id, top: Id)
    requires Calm(s, top) && t in Pending(s)
    ensures KeysUsed(s) && NewIds(s, Call(t, top)) && !SC.Busy(s.sidecar, Camera(t))
  {
  }

  lemma PostFollows(s: State, t: Id, top: Id)
    requires Calm(s, top) && t in Pending(s)
    ensures var l := TokenLoaded(t, top, Some("t")); Enabled(s, l) && Next(s, l) == Posted(s, Call(t, top))
  {
  }

  lemma StillPending(s: State, t: Id, top: Id)
    requires t in Pending(s)
    ensures var c := Call(t, top);
            && Pending(Posted(s, c)) == Pending(Taken(s, c)) == Pending(s)
            && Pending(Started(s, c)) == Pending(Held(s, c)) == Pending(s)
            && Pending(Bound(s, c)) == Pending(s) - {t}
  {
  }

  lemma BoundIsCalm(s: State, t: Id, top: Id)
    requires Calm(s, top) && t in Pending(s)
    ensures Calm(Bound(s, Call(t, top)), top + 2) && top + 1 !in s.sessions
  {
    var u := Bound(s, Call(t, top));
    StillPending(s, t, top);
    forall q | q in Pending(u) ensures u.tasks[q] == LoadingToken(Camera(q)) && Unserved(u, q) {
      assert q in Pending(s) && q != t;
    }
  }

  // ---- many creates ---------------------------------------------------------------------

  lemma OneFirst(s: State, l: Label, ls: seq<Label>, k: nat) returns (all: seq<Label>)
    requires Enabled(s, l) && Run(Next(s, l), ls) && PendingAtMost(Next(s, l), ls, k) && |Pending(s)| <= k
    ensures Run(s, all) && Exec(s, all) == Exec(Next(s, l), ls) && PendingAtMost(s, all, k)
  {
    all := [l] + ls;
    assert all[1..] == ls;
  }

  lemma {:induction false} Compose(s: State, a: seq<Label>, b: seq<Label>, k: nat)
    requires Run(s, a) && PendingAtMost(s, a, k) && Run(Exec(s, a), b) && PendingAtMost(Exec(s, a), b, k)
    ensures Run(s, a + b) && Exec(s, a + b) == Exec(Exec(s, a), b) && PendingAtMost(s, a + b, k)
    decreases |a|
  {
    if a == [] {
      assert a + b == b;
    } else {
      assert (a + b)[1..] == a[1..] + b && (a + b)[0] == a[0];
      Compose(Next(s, a[0]), a[1..], b, k);
    }
  }

  /** A pending create goes on to its bind. */
  lemma Completes(s: State, t: Id, top: Id, k: nat) returns (ls: seq<Label>)
    requires Calm(s, top) && t in Pending(s) && |Pending(s)| <= k
    ensures Run(s, ls) && PendingAtMost(s, ls, k) && Exec(s, ls) == Bound(s, Call(t, top))
  {
    var c := Call(t, top);
    CallIsNew(s, t, top);
    StillPending(s, t, top);
    SC.Smaller(Pending(s) - {t}, Pending(s));
    PostFollows(s, t, top);
    TakenFollows(s, c);
    StartedFollows(s, c);
    HeldFollows(s, c);
    BoundFollows(s, c);
    ls := OneFirst(Held(s, c), Bind(t, top + 1), [], k);
    ls := OneFirst(Started(s, c), StartReplied(t), ls, k);
    ls := OneFirst(Taken(s, c), AtSidecar(SC.FactoryStarts(top, SC.Active, false)), ls, k);
    ls := OneFirst(Posted(s, c), Arrives(c), ls, k);
    ls := OneFirst(s, TokenLoaded(t, top, Some("t")), ls, k);
  }

  /** Where a run from s ends. */
  ghost predicate Reaches(s: State, ls: seq<Label>, k: nat, top: Id, sessions: nat, pending: nat) {
    && Run(s, ls) && PendingAtMost(s, ls, k)
    && var u := Exec(s, ls);
       Calm(u, top) && u.max == s.max && |u.sessions| == sessions && |Pending(u)| == pending
  }

  lemma Goes(s: State, a: seq<Label>, b: seq<Label>, k: nat, mid: Id, top: Id,
             n: nat, m: nat, sessions: nat, pending: nat)
    requires Reaches(s, a, k, mid, n, m) && Reaches(Exec(s, a), b, k, top, sessions, pending)
    ensures Reaches(s, a + b, k, top, sessions, pending)
  {
    Compose(s, a, b, k);
  }

  ghost function Entered(s: State, top: Id): State {
    SetTask(s, top, LoadingToken(Camera(top)))
  }

  lemma EnteredFollows(s: State, top: Id)
    requires Calm(s, top) && |s.sessions| < s.max
    ensures var l := CreateBegins(top, Camera(top)); Enabled(s, l) && Next(s, l) == Entered(s, top)
  {
  }

  lemma EnteredPending(s: State, top: Id)
    requires Calm(s, top)
    ensures Pending(Entered(s, top)) == Pending(s) + {top} && top !in Pending(s)
  {
  }

  lemma EnteredIsCalm(s: State, top: Id)
    requires Calm(s, top)
    ensures Calm(Entered(s, top), top + 1)
  {
    var u := Entered(s, top);
    EnteredPending(s, top);
    forall t | t in Pending(u) ensures u.tasks[t] == LoadingToken(Camera(t)) && Unserved(u, t) {
      assert t != top ==> t in Pending(s);
    }
  }

  lemma Admits(s: State, top: Id, k: nat) returns (ls: seq<Label>)
    requires Calm(s, top) && |s.sessions| < s.max && |Pending(s)| < k
    ensures Reaches(s, ls, k, top + 1, |s.sessions|, |Pending(s)| + 1)
  {
    EnteredFollows(s, top);
    EnteredPending(s, top);
    EnteredIsCalm(s, top);
    ls := OneFirst(s, CreateBegins(top, Camera(top)), [], k);
  }

  /** n callers pass the check before any of them binds. */
  lemma {:induction false} AdmitsAll(s: State, top: Id, n: nat, k: nat) returns (ls: seq<Label>, end: Id)
    requires Calm(s, top) && |s.sessions| < s.max && |Pending(s)| + n <= k
    ensures Reaches(s, ls, k, end, |s.sessions|, |Pending(s)| + n)
    decreases n
  {
    if n == 0 {
      ls, end := [], top;
    } else {
      var first := Admits(s, top, k);
      var rest;
      rest, end := AdmitsAll(Exec(s, first), top + 1, n - 1, k);
      ls := first + rest;
      Goes(s, first, rest, k, top + 1, end, |s.sessions|, |Pending(s)| + 1, |s.sessions|, |Pending(s)| + n);
    }
  }

  lemma CompletesOne(s: State, top: Id, k: nat) returns (ls: seq<Label>)
    requires Calm(s, top) && 0 < |Pending(s)| <= k
    ensures Reaches(s, ls, k, top + 2, |s.sessions| + 1, |Pending(s)| - 1)
  {
    var t :| t in Pending(s);
    ls := Completes(s, t, top, k);
    BoundIsCalm(s, t, top);
    StillPending(s, t, top);
  }

  /** And all of them bind. */
  lemma {:induction false} CompletesAll(s: State, top: Id, k: nat) returns (ls: seq<Label>, end: Id)
    requires Calm(s, top) && |Pending(s)| <= k
    ensures Reaches(s, ls, k, end, |s.sessions| + |Pending(s)|, 0)
    decreases |Pending(s)|
  {
    if |Pending(s)| == 0 {
      ls, end := [], top;
    } else {
      var first := CompletesOne(s, top, k);
      var rest;
      rest, end := CompletesAll(Exec(s, first), top + 2, k);
      ls := first + rest;
      Goes(s, first, rest, k, top + 2, end, |s.sessions| + 1, |Pending(s)| - 1, |s.sessions| + |Pending(s)|, 0);
    }
  }

  /** n creates at once, below the limit when they come. */
  lemma Batch(s: State, top: Id, n: nat, k: nat) returns (ls: seq<Label>, end: Id)
    requires Calm(s, top) && |s.sessions| < s.max && |Pending(s)| == 0 && n <= k
    ensures Reaches(s, ls, k, end, |s.sessions| + n, 0)
  {
    var a, mid := AdmitsAll(s, top, n, k);
    var b;
    b, end := CompletesAll(Exec(s, a), mid, k);
    ls := a + b;
    Goes(s, a, b, k, mid, end, |s.sessions|, n, |s.sessions| + n, 0);
  }

  /** n creates one after the other. */
  lemma {:induction false} OneByOne(s: State, top: Id, n: nat, k: nat) returns (ls: seq<Label>, end: Id)
    requires Calm(s, top) && |s.sessions| + n <= s.max && |Pending(s)| == 0 && 1 <= k
    ensures Reaches(s, ls, k, end, |s.sessions| + n, 0)
    decreases n
  {
    if n == 0 {
      ls, end := [], top;
    } else {
      var first, mid := Batch(s, top, 1, k);
      var rest;
      rest, end := OneByOne(Exec(s, first), mid, n - 1, k);
      ls := first + rest;
      Goes(s, first, rest, k, mid, end, |s.sessions| + 1, 0, |s.sessions| + n, 0);
    }
  }

  /** For every limit and every k there is a run on which never more than k creates are
      between the check and the bind and which ends with max - 1 + k sessions: the bound
      cannot be improved. */
  lemma OvershootIsReached(max: int, k: nat)
    requires max >= 1 && k >= 1
    ensures exists ls: seq<Label> ::
              Run(Init(max), ls) && PendingAtMost(Init(max), ls, k) && |Exec(Init(max), ls).sessions| == max - 1 + k
  {
    assert Pending(Init(max)) == {};
    var a, mid := OneByOne(Init(max), 0, max - 1, k);
    var b, end := Batch(Exec(Init(max), a), mid, k, k);
    Goes(Init(max), a, b, k, mid, end, max - 1, 0, max - 1 + k, 0);
  }
}
