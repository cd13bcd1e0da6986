/** The OAuth lifecycle of RingConsumerClient (ring_consumer_client.py) over the
    single stored row of RefreshTokenStore (refresh_token_store.py).  Callers queue
    for the token lock; one label is one stretch of ensure_access_token or _refresh
    between two awaits.  Times are readings of a clock that does not go back. */
module TokenLifecycle {
  import opened Common

  type Id = nat

  datatype Row = Row(token: string, valid: bool)

  datatype Access = Access(token: string, expiresAt: real)

  const THRESHOLD := 60.0

  datatype Pc =
    | Waiting                                                    // for the lock
    | Loading                                                    // store.load
    | Posting(refresh: string)                                   // the OAuth POST
    | Invalidating                                               // store.mark_invalid
    | Rotating(refresh: string, access: string, lifetime: real)  // store.rotate

  /** How a success reply fails to be read. */
  datatype Loss = TimedOut | Broken | Malformed

  /** What the OAuth server did with a POST and what the client saw of it. */
  datatype Answer =
    | Unreachable(timedOut: bool)                                // nothing happened
    | Refused                                                    // 401
    | Declined                                                   // any other status but 200
    | Granted(access: string, lifetime: real, refresh: Option<string>)
    | GrantedUnread(refresh: Option<string>, loss: Loss)         // 200 lost or malformed

  /** Rejection is the 401; its caller then marks the row (Invalidated) or dies before
      it did (Unmarked). */
  datatype Event =
    | Posted(at: real)
    | Refreshed(at: real, lifetime: real)
    | Rejection
    | Invalidated
    | Unmarked
    | Saved
    | Restarted

  datatype State = State(
    row: Option<Row>,
    access: Option<Access>,
    lock: Option<Id>,
    tasks: map<Id, Pc>,
    current: string,         // the refresh token that the server accepts
    known: set<string>,      // every refresh token ever issued or saved
    late: set<string>,       // presented by POSTs that were given up but may still arrive
    stale: bool,             // history: the row is not, or will not be, the server's token
    clock: real,
    log: seq<Event>)         // history

  function Init(current: string, now: real): State {
    State(None, None, None, map[], current, {current}, {}, false, now, [])
  }

  datatype Label =
    | Enter(t: Id)
    | Acquire(t: Id, now: real)
    | Load(t: Id, now: real)
    | Exchange(t: Id, now: real, answer: Answer)
    | MarkInvalid(t: Id)
    | Rotate(t: Id, now: real)
    | RotateDies(t: Id)
    | Dies(t: Id)
    | Late(presented: string, refresh: string)
    | Restart
    | Save(token: string, granted: bool)

  predicate At(s: State, t: Id, pc: Pc) {
    t in s.tasks && s.tasks[t] == pc
  }

  /** The cached access token still has more than a minute. */
  predicate Fresh(s: State, now: real) {
    s.access.Some? && s.access.value.expiresAt - now > THRESHOLD
  }

  /** A rotated refresh token is the same one or one never seen before. */
  predicate NewOrSame(s: State, presented: string, refresh: Option<string>) {
    refresh.Some? ==> refresh.value == presented || refresh.value !in s.known
  }

  predicate Enabled(s: State, l: Label) {
    match l
    case Enter(t) => t !in s.tasks
    case Acquire(t, now) => At(s, t, Waiting) && s.lock.None? && s.clock <= now
    case Load(t, now) => At(s, t, Loading) && s.clock <= now
    case Exchange(t, now, answer) =>
      && t in s.tasks && s.tasks[t].Posting? && s.clock <= now
      && (answer.Granted? || answer.GrantedUnread? ==>
            s.tasks[t].refresh == s.current && NewOrSame(s, s.current, answer.refresh))
    case MarkInvalid(t) => At(s, t, Invalidating)
    case Rotate(t, now) => t in s.tasks && s.tasks[t].Rotating? && s.clock <= now
    case RotateDies(t) => t in s.tasks && s.tasks[t].Rotating?
    case Dies(t) => t in s.tasks && !s.tasks[t].Posting?
    case Late(presented, refresh) => presented in s.late && presented == s.current && refresh !in s.known
    case Restart => s.tasks == map[]
    case Save(token, granted) => s.lock.None? && (granted ==> token !in s.known)
  }

  /** A caller returns or raises; the lock is free again if it held it. */
  function End(s: State, t: Id): State {
    s.(tasks := s.tasks - {t}, lock := if s.lock == Some(t) then None else s.lock)
  }

  function Goto(s: State, t: Id, pc: Pc): State {
    s.(tasks := s.tasks[t := pc])
  }

  function ServerRotates(s: State, refresh: Option<string>): State {
    if refresh.None? then s else s.(current := refresh.value, known := s.known + {refresh.value})
  }

  function SetAccess(s: State, token: string, now: real, lifetime: real): State {
    s.(access := Some(Access(token, now + lifetime)), log := s.log + [Refreshed(now, lifetime)], clock := now)
  }

  function DoAcquire(s: State, t: Id, now: real): State {
    if Fresh(s, now) then End(s, t).(clock := now)
    else Goto(s, t, Loading).(lock := Some(t), clock := now)
  }

  /** load, and the POST that follows unless there is no valid row. */
  function DoLoad(s: State, t: Id, now: real): State {
    if s.row.None? || !s.row.value.valid then End(s, t).(clock := now)
    else Goto(s, t, Posting(s.row.value.token)).(clock := now, log := s.log + [Posted(now)])
  }

  function DoExchange(s: State, t: Id, now: real, answer: Answer): State
    requires t in s.tasks && s.tasks[t].Posting?
  {
    match answer
    case Unreachable(_) => End(s, t).(clock := now, late := s.late + {s.tasks[t].refresh})
    case Declined => End(s, t).(clock := now)
    case Refused => Goto(s, t, Invalidating).(clock := now, log := s.log + [Rejection])
    case Granted(access, lifetime, refresh) =>
      var s1 := ServerRotates(s, refresh);
      if refresh.Some? && refresh.value != s.tasks[t].refresh
      then Goto(s1, t, Rotating(refresh.value, access, lifetime)).(clock := now)
      else End(SetAccess(s1, access, now, lifetime), t)
    case GrantedUnread(refresh, _) =>
      End(ServerRotates(s, refresh), t).(
        stale := s.stale || (refresh.Some? && refresh.value != s.tasks[t].refresh), clock := now)
  }

  function DoMarkInvalid(s: State, t: Id): State {
    End(s, t).(row := if s.row.None? then None else Some(s.row.value.(valid := false)), log := s.log + [Invalidated])
  }

  function DoRotate(s: State, t: Id, now: real): State
    requires t in s.tasks && s.tasks[t].Rotating?
  {
    var pc := s.tasks[t];
    End(SetAccess(s.(row := Some(Row(pc.refresh, true))), pc.access, now, pc.lifetime), t)
  }

  /** A cancellation after the new refresh token was stored and before the access token
      is cached. */
  function DoRotateDies(s: State, t: Id): State
    requires t in s.tasks && s.tasks[t].Rotating?
  {
    End(s.(row := Some(Row(s.tasks[t].refresh, true))), t)
  }

  /** A cancellation, or a database error that rolls back. */
  function DoDies(s: State, t: Id): State
    requires t in s.tasks
  {
    End(s, t).(stale := s.stale || s.tasks[t].Rotating?,
               log := if s.tasks[t].Invalidating? then s.log + [Unmarked] else s.log)
  }

  /** The server works on a POST that its caller has given up long ago, and rotates. */
  function DoLate(s: State, presented: string, refresh: string): State {
    s.(current := refresh, known := s.known + {refresh}, late := s.late - {presented}, stale := true)
  }

  /** A new process, once every caller of the old one has ended or died: the row stays. */
  function DoRestart(s: State): State {
    s.(access := None, log := s.log + [Restarted])
  }

  /** A token is stored, as at start-up from the environment: one that the server has
      just granted to the operator, or whatever stands there. */
  function DoSave(s: State, token: string, granted: bool): State {
    s.(row := Some(Row(token, true)), current := if granted then token else s.current,
       known := s.known + {token}, stale := !granted && token != s.current, log := s.log + [Saved])
  }

  function Next(s: State, l: Label): State
    requires Enabled(s, l)
  {
    match l
    case Enter(t) => Goto(s, t, Waiting)
    case Acquire(t, now) => DoAcquire(s, t, now)
    case Load(t, now) => DoLoad(s, t, now)
    case Exchange(t, now, answer) => DoExchange(s, t, now, answer)
    case MarkInvalid(t) => DoMarkInvalid(s, t)
    case Rotate(t, now) => DoRotate(s, t, now)
    case RotateDies(t) => DoRotateDies(s, t)
    case Dies(t) => DoDies(s, t)
    case Late(presented, refresh) => DoLate(s, presented, refresh)
    case Restart => DoRestart(s)
    case Save(token, granted) => DoSave(s, token, granted)
  }

  predicate Run(s: State, ls: seq<Label>)
    decreases |ls|
  {
    ls == [] || (Enabled(s, ls[0]) && Run(Next(s, ls[0]), ls[1..]))
  }

  function Exec(s: State, ls: seq<Label>): State
    requires Run(s, ls)
    decreases |ls|
  {
    if ls == [] then s else Exec(Next(s, ls[0]), ls[1..])
  }

  // ---- agreement with the server -----------------------------------------------

  /** Only the holder of the lock is past the queue. */
  ghost predicate Exclusive(s: State) {
    && (forall t | t in s.tasks && s.tasks[t] != Waiting :: s.lock == Some(t))
    && (s.lock.Some? ==> s.lock.value in s.tasks && s.tasks[s.lock.value] != Waiting)
  }

  /** The stored token is the server's exactly if the history says so. */
  predicate RowAgrees(s: State) {
    s.row.Some? ==>
      && s.row.value.token in s.known
      && (s.row.value.valid ==> (s.row.value.token == s.current <==> !s.stale))
  }

  predicate PcAgrees(s: State, pc: Pc) {
    match pc
    case Waiting => true
    case Loading => RowAgrees(s)
    case Posting(r) => RowAgrees(s) && s.row == Some(Row(r, true))
    case Invalidating => RowAgrees(s) && s.row.Some? && s.row.value.valid
    case Rotating(r, _, _) =>
      && r in s.known && (s.current == r <==> !s.stale)
      && s.row.Some? && s.row.value.valid && s.row.value.token in s.known && s.row.value.token != s.current
  }

  ghost predicate Agreement(s: State) {
    && s.current in s.known
    && (s.lock.None? ==> RowAgrees(s))
    && (forall t | t in s.tasks :: PcAgrees(s, s.tasks[t]))
  }

  lemma ExchangeAgrees(s: State, t: Id, now: real, answer: Answer)
    requires Exclusive(s) && Agreement(s) && Enabled(s, Exchange(t, now, answer))
    ensures var u := DoExchange(s, t, now, answer); Exclusive(u) && Agreement(u)
  {
    assert s.lock == Some(t) && PcAgrees(s, s.tasks[t]);
    assert answer.Granted? ==> ServerRotates(s, answer.refresh).current in ServerRotates(s, answer.refresh).known;
  }

  lemma NextAgrees(s: State, l: Label)
    requires Exclusive(s) && Agreement(s) && Enabled(s, l)
    ensures Exclusive(Next(s, l)) && Agreement(Next(s, l))
  {
    if l.Exchange? {
      ExchangeAgrees(s, l.t, l.now, l.answer);
    }
  }

  // ---- the log --------------------------------------------------------------------

  ghost predicate RestartedBetween(log: seq<Event>, i: int, j: int) {
    exists k :: 0 <= i < k < j <= |log| && log[k].Restarted?
  }

  /** No POST before the expiry, less a minute, of any access token that the same process
      got before it. */
  ghost predicate Spaced(log: seq<Event>) {
    forall i, j | 0 <= i < j < |log| && log[i].Refreshed? && log[j].Posted? ::
      log[i].at + log[i].lifetime - THRESHOLD <= log[j].at || RestartedBetween(log, i, j)
  }

  predicate EndsIn(log: seq<Event>, e: Event) {
    log != [] && log[|log| - 1] == e
  }

  /** The server has rejected the token; neither a save nor the death of the caller that
      was to mark the row has come since. */
  predicate Rejected(log: seq<Event>) {
    if log == [] then false
    else if EndsIn(log, Rejection) then true
    else if EndsIn(log, Saved) || EndsIn(log, Unmarked) then false
    else Rejected(log[..|log| - 1])
  }

  /** No POST while the token stands rejected. */
  predicate Silent(log: seq<Event>) {
    if log == [] then true
    else
      var init, e := log[..|log| - 1], log[|log| - 1];
      Silent(init) && (e.Posted? || e.Rejection? ==> !Rejected(init))
  }

  /** Right after a rejection, and only there, its caller marks the row or dies. */
  predicate Settled(log: seq<Event>) {
    if log == [] then true
    else
      var init, e := log[..|log| - 1], log[|log| - 1];
      Settled(init) && (EndsIn(init, Rejection) <==> e.Invalidated? || e.Unmarked?)
  }

  predicate Past(s: State, e: Event) {
    e.Refreshed? ==> e.at + e.lifetime - THRESHOLD <= s.clock
  }

  /** The access token of exchange i is past its last minute, or it is the cached one, or
      the process has been restarted since. */
  ghost predicate Covered(s: State, i: int)
    requires 0 <= i < |s.log|
  {
    var e := s.log[i];
    || Past(s, e)
    || (s.lock.None? && e.Refreshed? && s.access.Some? && s.access.value.expiresAt == e.at + e.lifetime)
    || RestartedBetween(s.log, i, |s.log|)
  }

  /** The lock holder has read the 401 and has yet to mark the row. */
  predicate Marking(s: State) {
    s.lock.Some? && s.lock.value in s.tasks && s.tasks[s.lock.value].Invalidating?
  }

  predicate RowFollows(s: State) {
    Rejected(s.log) ==> (s.row.Some? && !s.row.value.valid) || Marking(s)
  }

  ghost predicate LogOk(s: State) {
    && Spaced(s.log) && Silent(s.log) && Settled(s.log) && RowFollows(s)
    && (EndsIn(s.log, Rejection) <==> Marking(s))
    && (s.lock.Some? ==> !Fresh(s, s.clock))
    && (forall i {:trigger Covered(s, i)} | 0 <= i < |s.log| :: Covered(s, i))
  }

  /** What was covered stays so: the lock is held, or nothing changes, or the cached
      token has turned stale. */
  predicate Forward(s: State, u: State) {
    s.clock <= u.clock && (s.lock.Some? || (u.lock.None? && u.access == s.access) || !Fresh(s, u.clock))
  }

  lemma StaysCovered(s: State, u: State, i: int)
    requires 0 <= i < |s.log| && s.log <= u.log && s.clock <= u.clock && Covered(s, i)
    requires Forward(s, u) || (|u.log| > |s.log| && u.log[|s.log|].Restarted?)
    ensures Covered(u, i)
  {
    assert u.log[i] == s.log[i];
    if RestartedBetween(s.log, i, |s.log|) {
      var k :| 0 <= i < k < |s.log| && s.log[k].Restarted?;
      assert u.log[k].Restarted?;
    }
  }

  lemma NoEvent(s: State, u: State)
    requires LogOk(s) && Forward(s, u) && u.log == s.log && RowFollows(u) && Marking(u) == Marking(s)
    requires u.lock.Some? ==> !Fresh(u, u.clock)
    ensures LogOk(u)
  {
    forall i | 0 <= i < |u.log| ensures Covered(u, i) {
      StaysCovered(s, u, i);
    }
  }

  lemma StaysSpaced(s: State, e: Event)
    requires Spaced(s.log) && forall i {:trigger Covered(s, i)} | 0 <= i < |s.log| :: Covered(s, i)
    requires e.Posted? ==> s.lock.Some? && s.clock <= e.at
    ensures Spaced(s.log + [e])
  {
    var n, log := |s.log|, s.log + [e];
    forall i, j | 0 <= i < j < |log| && log[i].Refreshed? && log[j].Posted?
      ensures log[i].at + log[i].lifetime - THRESHOLD <= log[j].at || RestartedBetween(log, i, j)
    {
      assert log[i] == s.log[i] && Covered(s, i);
      if j < n {
        assert log[j] == s.log[j];
        if RestartedBetween(s.log, i, j) {
          var k :| 0 <= i < k < j && s.log[k].Restarted?;
          assert log[k].Restarted?;
        }
      } else if RestartedBetween(s.log, i, n) {
        var k :| 0 <= i < k < n && s.log[k].Restarted?;
        assert log[k].Restarted?;
      }
    }
  }

  lemma OneEvent(s: State, u: State, e: Event)
    requires LogOk(s) && u.log == s.log + [e] && RowFollows(u) && s.clock <= u.clock
    requires Forward(s, u) || e.Restarted?
    requires Covered(u, |s.log|)
    requires e.Posted? ==> s.lock.Some? && s.clock <= e.at
    requires e.Posted? || e.Rejection? ==> !Rejected(s.log)
    requires (e.Invalidated? || e.Unmarked? <==> Marking(s)) && (e.Rejection? <==> Marking(u))
    requires u.lock.Some? ==> !Fresh(u, u.clock)
    ensures LogOk(u)
  {
    var n := |s.log|;
    assert u.log[..n] == s.log;
    StaysSpaced(s, e);
    forall i | 0 <= i < |u.log| ensures Covered(u, i) {
      if i < n {
        StaysCovered(s, u, i);
      }
    }
  }

  lemma RefusedLogOk(s: State, t: Id, now: real)
    requires Exclusive(s) && Agreement(s) && LogOk(s) && Enabled(s, Exchange(t, now, Refused))
    ensures LogOk(DoExchange(s, t, now, Refused))
  {
    assert s.lock == Some(t) && PcAgrees(s, s.tasks[t]);
    var u := DoExchange(s, t, now, Refused);
    assert u.log[..|s.log|] == s.log;
    OneEvent(s, u, Rejection);
  }

  /** The lock holder sets a new access token and lets the lock go. */
  lemma GotToken(s: State, u: State, now: real, lifetime: real)
    requires LogOk(s) && s.lock.Some? && !Marking(s) && !Rejected(s.log) && s.clock <= now == u.clock
    requires u.log == s.log + [Refreshed(now, lifetime)] && u.lock.None?
    requires u.access.Some? && u.access.value.expiresAt == now + lifetime
    ensures LogOk(u)
  {
    var e := Refreshed(now, lifetime);
    assert u.log[..|s.log|] == s.log && u.log[|s.log|] == e;
    OneEvent(s, u, e);
  }

  /** A POST under way, or what follows its success, means that no rejection stands. */
  lemma NotRejected(s: State, t: Id)
    requires Exclusive(s) && Agreement(s) && LogOk(s) && t in s.tasks && (s.tasks[t].Posting? || s.tasks[t].Rotating?)
    ensures s.lock == Some(t) && !Marking(s) && !Rejected(s.log)
  {
    assert PcAgrees(s, s.tasks[t]);
  }

  lemma GrantedLogOk(s: State, t: Id, now: real, access: string, lifetime: real, refresh: Option<string>)
    requires Exclusive(s) && Agreement(s) && LogOk(s)
    requires Enabled(s, Exchange(t, now, Granted(access, lifetime, refresh)))
    ensures LogOk(DoExchange(s, t, now, Granted(access, lifetime, refresh)))
  {
    NotRejected(s, t);
    var u := DoExchange(s, t, now, Granted(access, lifetime, refresh));
    if refresh.Some? && refresh.value != s.tasks[t].refresh {
      NoEvent(s, u);
    } else {
      GotToken(s, u, now, lifetime);
    }
  }

  lemma FailedLogOk(s: State, t: Id, now: real, answer: Answer)
    requires answer.Unreachable? || answer.Declined? || answer.GrantedUnread?
    requires Exclusive(s) && Agreement(s) && LogOk(s) && Enabled(s, Exchange(t, now, answer))
    ensures LogOk(DoExchange(s, t, now, answer))
  {
    assert s.lock == Some(t) && PcAgrees(s, s.tasks[t]);
    NoEvent(s, DoExchange(s, t, now, answer));
  }

  lemma LoadLogOk(s: State, t: Id, now: real)
    requires Exclusive(s) && Agreement(s) && LogOk(s) && Enabled(s, Load(t, now))
    ensures LogOk(DoLoad(s, t, now))
  {
    assert s.lock == Some(t);
    var u := DoLoad(s, t, now);
    if u.log == s.log {
      NoEvent(s, u);
    } else {
      OneEvent(s, u, Posted(now));
    }
  }

  lemma MarkInvalidLogOk(s: State, t: Id)
    requires Exclusive(s) && Agreement(s) && LogOk(s) && Enabled(s, MarkInvalid(t))
    ensures LogOk(DoMarkInvalid(s, t))
  {
    assert s.lock == Some(t) && PcAgrees(s, s.tasks[t]);
    OneEvent(s, DoMarkInvalid(s, t), Invalidated);
  }

  lemma RotateLogOk(s: State, t: Id, now: real)
    requires Exclusive(s) && Agreement(s) && LogOk(s) && Enabled(s, Rotate(t, now))
    ensures LogOk(DoRotate(s, t, now))
  {
    NotRejected(s, t);
    GotToken(s, DoRotate(s, t, now), now, s.tasks[t].lifetime);
  }

  lemma DiesLogOk(s: State, t: Id)
    requires Exclusive(s) && Agreement(s) && LogOk(s) && Enabled(s, Dies(t))
    ensures LogOk(DoDies(s, t))
  {
    assert PcAgrees(s, s.tasks[t]);
    var u := DoDies(s, t);
    if s.tasks[t].Invalidating? {
      assert u.log[..|s.log|] == s.log;
      OneEvent(s, u, Unmarked);
    } else {
      NoEvent(s, u);
    }
  }

  lemma SaveLogOk(s: State, token: string, granted: bool)
    requires Exclusive(s) && LogOk(s) && Enabled(s, Save(token, granted))
    ensures LogOk(DoSave(s, token, granted)) && (s.tasks == map[] ==> LogOk(DoRestart(s)))
  {
    var u, v := DoSave(s, token, granted), DoRestart(s);
    assert u.log[..|s.log|] == s.log && v.log[..|s.log|] == s.log;
    OneEvent(s, u, Saved);
    if s.tasks == map[] {
      OneEvent(s, v, Restarted);
    }
  }

  lemma QuietLogOk(s: State, l: Label)
    requires l.Enter? || l.Acquire? || l.RotateDies? || l.Late?
    requires Exclusive(s) && Agreement(s) && LogOk(s) && Enabled(s, l)
    ensures LogOk(Next(s, l))
  {
    NoEvent(s, Next(s, l));
  }

  lemma NextLogOk(s: State, l: Label)
    requires Exclusive(s) && Agreement(s) && LogOk(s) && Enabled(s, l)
    ensures LogOk(Next(s, l))
  {
    match l
    case Exchange(t, now, Refused) => RefusedLogOk(s, t, now);
    case Exchange(t, now, Granted(access, lifetime, refresh)) => GrantedLogOk(s, t, now, access, lifetime, refresh);
    case Exchange(t, now, answer) => FailedLogOk(s, t, now, answer);
    case Enter(_) => QuietLogOk(s, l);
    case Acquire(_, _) => QuietLogOk(s, l);
    case RotateDies(_) => QuietLogOk(s, l);
    case Late(_, _) => QuietLogOk(s, l);
    case Load(t, now) => LoadLogOk(s, t, now);
    case MarkInvalid(t) => MarkInvalidLogOk(s, t);
    case Rotate(t, now) => RotateLogOk(s, t, now);
    case Dies(t) => DiesLogOk(s, t);
    case Save(token, granted) => SaveLogOk(s, token, granted);
    case Restart => SaveLogOk(s, s.current, false);
  }

  // ---- every run --------------------------------------------------------------------

  lemma {:induction false} RunKeeps(s: State, ls: seq<Label>)
    requires Exclusive(s) && Agreement(s) && LogOk(s) && Run(s, ls)
    ensures var u := Exec(s, ls); Exclusive(u) && Agreement(u) && LogOk(u)
    decreases |ls|
  {
    if ls == [] {
    } else {
      NextAgrees(s, ls[0]);
      NextLogOk(s, ls[0]);
      RunKeeps(Next(s, ls[0]), ls[1..]);
    }
  }

  ghost predicate Reached(s: State, current: string, now: real, ls: seq<Label>) {
    Run(Init(current, now), ls) && Exec(Init(current, now), ls) == s
  }

  /** The stored row turns, or will turn, into another token than the server's: a rotated
      token is lost, by a success reply that goes unread, a caller that dies before it has
      stored the token, or a POST that the server works on too late; or a token is saved
      that is not the server's.  A death in the queue, or while the row is read, loses
      nothing. */
  predicate GoesStale(s: State, l: Label)
    requires Enabled(s, l)
  {
    match l
    case Exchange(t, _, GrantedUnread(refresh, _)) => refresh.Some? && refresh.value != s.tasks[t].refresh
    case Dies(t) => s.tasks[t].Rotating?
    case Late(_, _) => true
    case Save(token, granted) => !granted && token != s.current
    case _ => false
  }

  /** On this run the row went stale, and no token of the server was saved since. */
  predicate StaleAfter(s: State, ls: seq<Label>, before: bool)
    requires Run(s, ls)
    decreases |ls|
  {
    if ls == [] then before
    else StaleAfter(Next(s, ls[0]), ls[1..], GoesStale(s, ls[0]) || (before && !ls[0].Save?))
  }

  /** What the history calls stale is so. */
  lemma {:induction false} StaleMeans(s: State, ls: seq<Label>)
    requires Run(s, ls)
    ensures Exec(s, ls).stale == StaleAfter(s, ls, s.stale)
    decreases |ls|
  {
    if ls == [] {
    } else {
      StaleMeans(Next(s, ls[0]), ls[1..]);
    }
  }

  /** On every run: with the lock free and a valid row, the stored token is the server's
      current one if and only if the run did not make the row stale; a POST under way
      presents the current token under the same condition; and there is one at most. */
  lemma RefreshTokenAgreement(s: State, current: string, now: real, ls: seq<Label>)
    requires Reached(s, current, now, ls)
    ensures s.lock.None? && s.row.Some? && s.row.value.valid ==>
              (s.row.value.token == s.current <==> !StaleAfter(Init(current, now), ls, false))
    ensures forall t | t in s.tasks && s.tasks[t].Posting? ::
              s.tasks[t].refresh == s.current <==> !StaleAfter(Init(current, now), ls, false)
    ensures forall t, u | t in s.tasks && u in s.tasks && s.tasks[t].Posting? && s.tasks[u].Posting? :: t == u
  {
    RunKeeps(Init(current, now), ls);
    StaleMeans(Init(current, now), ls);
    forall t | t in s.tasks ensures PcAgrees(s, s.tasks[t]) {
    }
  }

  predicate NeverStale(s: State, ls: seq<Label>)
    requires Run(s, ls)
    decreases |ls|
  {
    ls == [] || (!GoesStale(s, ls[0]) && NeverStale(Next(s, ls[0]), ls[1..]))
  }

  lemma {:induction false} NeverStaleRun(s: State, ls: seq<Label>)
    requires Run(s, ls) && NeverStale(s, ls)
    ensures !StaleAfter(s, ls, false)
    decreases |ls|
  {
    if ls == [] {
    } else {
      NeverStaleRun(Next(s, ls[0]), ls[1..]);
    }
  }

  /** So no interleaving of callers presents a superseded token when no rotated token is
      lost and no other token than the server's is saved. */
  lemma NeverSuperseded(s: State, current: string, now: real, ls: seq<Label>, t: Id)
    requires Reached(s, current, now, ls) && NeverStale(Init(current, now), ls)
    requires t in s.tasks && s.tasks[t].Posting?
    ensures s.tasks[t].refresh == s.current
  {
    NeverStaleRun(Init(current, now), ls);
    RefreshTokenAgreement(s, current, now, ls);
  }

  /** After an exchange that completes at t with lifetime e, no POST of the same process
      before t + e - 60. */
  lemma RefreshSpacing(s: State, current: string, now: real, ls: seq<Label>)
    requires Reached(s, current, now, ls)
    ensures Spaced(s.log)
  {
    RunKeeps(Init(current, now), ls);
  }

  // ---- a lost rotation does present the old token -----------------------------------

  lemma Prepend(s: State, l: Label, ls: seq<Label>)
    requires Enabled(s, l) && Run(Next(s, l), ls)
    ensures Run(s, [l] + ls) && Exec(s, [l] + ls) == Exec(Next(s, l), ls)
  {
    assert ([l] + ls)[1..] == ls;
  }

  lemma {:induction false} Compose(s: State, a: seq<Label>, b: seq<Label>)
    requires Run(s, a) && Run(Exec(s, a), b)
    ensures Run(s, a + b) && Exec(s, a + b) == Exec(Exec(s, a), b)
    decreases |a|
  {
    if a == [] {
      assert a + b == b;
    } else {
      Compose(Next(s, a[0]), a[1..], b);
      Prepend(s, a[0], a[1..] + b);
      assert a + b == [a[0]] + (a[1..] + b);
    }
  }

  /** A caller that finds the lock free and the access token stale presents the row. */
  lemma Posts(s: State, t: Id, now: real) returns (ls: seq<Label>)
    requires t !in s.tasks && s.lock.None? && s.clock <= now && !Fresh(s, now)
    requires s.row.Some? && s.row.value.valid
    ensures Run(s, ls)
    ensures Exec(s, ls) == s.(lock := Some(t), tasks := s.tasks[t := Posting(s.row.value.token)], clock := now,
                              log := s.log + [Posted(now)])
  {
    var s1 := Goto(s, t, Waiting);
    var s2 := DoAcquire(s1, t, now);
    Prepend(s2, Load(t, now), []);
    Prepend(s1, Acquire(t, now), [Load(t, now)] + []);
    ls := [Acquire(t, now)] + ([Load(t, now)] + []);
    Prepend(s, Enter(t), ls);
    ls := [Enter(t)] + ls;
    assert s.tasks[t := Waiting][t := Loading][t := Posting(s.row.value.token)]
        == s.tasks[t := Posting(s.row.value.token)];
  }

  lemma LostRotationPresentsOld()
    ensures exists s: State, ls: seq<Label> ::
              Reached(s, "a", 0.0, ls) && At(s, 2, Posting("a")) && s.current == "b" != "a"
  {
    var lost := Exchange(1, 0.0, GrantedUnread(Some("b"), Broken));
    var s0 := Init("a", 0.0);
    var s1 := DoSave(s0, "a", false);
    var l1 := Posts(s1, 1, 0.0);
    var s2 := Exec(s1, l1);
    assert "a"[0] != "b"[0];
    var s3 := Next(s2, lost);
    var l3 := Posts(s3, 2, 0.0);
    Prepend(s2, lost, l3);
    Compose(s1, l1, [lost] + l3);
    Prepend(s0, Save("a", false), l1 + ([lost] + l3));
    assert Reached(Exec(s3, l3), "a", 0.0, [Save("a", false)] + (l1 + ([lost] + l3)));
  }

  // ---- so does a start-up that saves a replaced token ---------------------------------

  /** Two labels after a run. */
  lemma GoesOn(s: State, ls: seq<Label>, a: Label, b: Label) returns (all: seq<Label>)
    requires Run(s, ls) && Enabled(Exec(s, ls), a) && Enabled(Next(Exec(s, ls), a), b)
    ensures Run(s, all) && Exec(s, all) == Next(Next(Exec(s, ls), a), b)
  {
    var v := Exec(s, ls);
    Prepend(Next(v, a), b, []);
    Prepend(v, a, [b] + []);
    all := ls + ([a] + ([b] + []));
    Compose(s, ls, [a] + ([b] + []));
  }

  /** A caller exchanges the stored token, and the server rotates it. */
  lemma RotatesOnce(s: State, t: Id, now: real, refresh: string) returns (ls: seq<Label>)
    requires t !in s.tasks && s.lock.None? && s.clock <= now && !Fresh(s, now)
    requires s.row == Some(Row(s.current, true)) && s.current in s.known && refresh !in s.known
    ensures Run(s, ls)
    ensures var u := Exec(s, ls);
            && u.row == Some(Row(refresh, true)) && u.current == refresh && u.known == s.known + {refresh}
            && u.tasks == s.tasks && u.lock.None? && u.clock == now && !Fresh(u, now)
  {
    ls := Posts(s, t, now);
    ls := GoesOn(s, ls, Exchange(t, now, Granted("x", 0.0, Some(refresh))), Rotate(t, now));
  }

  /** A caller is refused, and marks the row. */
  lemma RefusedOnce(s: State, t: Id, now: real) returns (ls: seq<Label>)
    requires t !in s.tasks && s.lock.None? && s.clock <= now && !Fresh(s, now)
    requires s.row.Some? && s.row.value.valid
    ensures Run(s, ls)
    ensures var u := Exec(s, ls);
            && u.row == Some(Row(s.row.value.token, false)) && u.current == s.current && u.known == s.known
            && u.tasks == s.tasks && u.lock.None? && u.clock == now && u.access == s.access
  {
    ls := Posts(s, t, now);
    ls := GoesOn(s, ls, Exchange(t, now, Refused), MarkInvalid(t));
  }

  /** No rotated token is lost, and yet the first token is presented after it was
      replaced: a 401 has marked the row, and the restart saves the token of the
      environment, which is still the first one. */
  lemma StartUpPresentsOld()
    ensures exists s: State, ls: seq<Label> ::
              Reached(s, "a", 0.0, ls) && At(s, 3, Posting("a")) && s.current == "b" != "a"
  {
    assert "a"[0] != "b"[0];
    var s0 := Init("a", 0.0);
    var s1 := DoSave(s0, "a", false);
    var l1 := RotatesOnce(s1, 1, 0.0, "b");
    var s2 := Exec(s1, l1);
    var l2 := RefusedOnce(s2, 2, 0.0);
    var l3 := GoesOn(s2, l2, Restart, Save("a", false));
    var s3 := Exec(s2, l3);
    var l4 := Posts(s3, 3, 0.0);
    Compose(s2, l3, l4);
    Compose(s1, l1, l3 + l4);
    Prepend(s0, Save("a", false), l1 + (l3 + l4));
    assert Reached(Exec(s3, l4), "a", 0.0, [Save("a", false)] + (l1 + (l3 + l4)));
  }
}
