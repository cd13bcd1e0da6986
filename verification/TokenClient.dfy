/** The token store and the client as objects, and one caller that runs alone. */
module TokenClient {
  import opened Common
  import opened TokenLifecycle

  // ---- one caller alone ------------------------------------------------------------

  /** After the check found the access token stale: load, POST, and what follows. */
  function Renewed(s: State, t: Id, sent: real, got: real, answer: Answer): State {
    var s1 := DoLoad(s, t, sent);
    if !(t in s1.tasks && s1.tasks[t].Posting?) then s1
    else
      var s2 := DoExchange(s1, t, got, answer);
      if At(s2, t, Invalidating) then DoMarkInvalid(s2, t)
      else if t in s2.tasks && s2.tasks[t].Rotating? then DoRotate(s2, t, got)
      else s2
  }

  /** One whole ensure_access_token, from taking the lock to releasing it, at the clock
      readings now <= sent <= got. */
  function Alone(s: State, t: Id, now: real, sent: real, got: real, answer: Answer): State {
    var s1 := DoAcquire(Goto(s, t, Waiting), t, now);
    if At(s1, t, Loading) then Renewed(s1, t, sent, got, answer) else s1
  }

  /** The server can give this answer to the token in the row. */
  predicate CanAnswer(s: State, answer: Answer) {
    answer.Granted? || answer.GrantedUnread? ==>
      s.row.Some? && s.row.value.token == s.current && NewOrSame(s, s.current, answer.refresh)
  }

  lemma RenewedRuns(s: State, t: Id, sent: real, got: real, answer: Answer) returns (ls: seq<Label>)
    requires At(s, t, Loading) && s.clock <= sent <= got && CanAnswer(s, answer)
    ensures Run(s, ls) && Exec(s, ls) == Renewed(s, t, sent, got, answer)
  {
    var s1 := DoLoad(s, t, sent);
    ls := [];
    if t in s1.tasks && s1.tasks[t].Posting? {
      var l := Exchange(t, got, answer);
      var s2 := DoExchange(s1, t, got, answer);
      if At(s2, t, Invalidating) {
        Prepend(s2, MarkInvalid(t), []);
        ls := [MarkInvalid(t)] + [];
      } else if t in s2.tasks && s2.tasks[t].Rotating? {
        Prepend(s2, Rotate(t, got), []);
        ls := [Rotate(t, got)] + [];
      }
      Prepend(s1, l, ls);
      ls := [l] + ls;
    }
    Prepend(s, Load(t, sent), ls);
    ls := [Load(t, sent)] + ls;
  }

  /** A call that runs alone is one of the protocol's runs. */
  lemma AloneRuns(s: State, t: Id, now: real, sent: real, got: real, answer: Answer) returns (ls: seq<Label>)
    requires t !in s.tasks && s.lock.None? && s.clock <= now <= sent <= got && CanAnswer(s, answer)
    ensures Run(s, ls) && Exec(s, ls) == Alone(s, t, now, sent, got, answer)
  {
    var s1 := Goto(s, t, Waiting);
    var s2 := DoAcquire(s1, t, now);
    ls := [];
    if At(s2, t, Loading) {
      ls := RenewedRuns(s2, t, sent, got, answer);
    }
    Prepend(s1, Acquire(t, now), ls);
    ls := [Acquire(t, now)] + ls;
    Prepend(s, Enter(t), ls);
    ls := [Enter(t)] + ls;
  }

  lemma RenewedIs(s: State, t: Id, sent: real, got: real, answer: Answer)
    requires At(s, t, Loading) && s.lock == Some(t)
    ensures var u := Renewed(s, t, sent, got, answer);
            var usable := s.row.Some? && s.row.value.valid;
            var granted := usable && answer.Granted?;
            && u.lock.None?
            && u.access == (if granted then Some(Access(answer.access, got + answer.lifetime)) else s.access)
            && u.row == if usable && answer.Refused? then Some(Row(s.row.value.token, false))
                        else if granted && answer.refresh.Some? then Some(Row(answer.refresh.value, true))
                        else s.row
  {
    var s1 := DoLoad(s, t, sent);
    if s.row.Some? && s.row.value.valid {
      assert At(s1, t, Posting(s.row.value.token));
      assert s.row == Some(Row(s.row.value.token, true));
      var s2 := DoExchange(s1, t, got, answer);
      match answer
      case Refused => assert At(s2, t, Invalidating);
      case Granted(_, _, refresh) =>
        assert refresh.Some? && refresh.value != s.row.value.token ==> t in s2.tasks && s2.tasks[t].Rotating?;
        assert !(refresh.Some? && refresh.value != s.row.value.token) ==> t !in s2.tasks;
      case _ => assert t !in s2.tasks;
    } else {
      assert t !in s1.tasks;
    }
  }

  // ---- the objects --------------------------------------------------------------------

  /** RefreshTokenStore: one row; encryption is a round trip and is left out. */
  class RefreshTokenStore {
    var row: Option<Row>

    method LoadToken() returns (token: Option<string>)
      ensures token.Some? <==> row.Some? && row.value.valid
      ensures token.Some? ==> token.value == row.value.token
    {
      if row.None? || !row.value.valid {
        return None;
      }
      token := Some(row.value.token);
    }

    method SaveToken(token: string)
      modifies this
      ensures row == Some(Row(token, true))
    {
      row := Some(Row(token, true));
    }

    /** One transaction: an insert if there is no row, else an update. */
    method RotateToken(token: string)
      modifies this
      ensures row == Some(Row(token, true))
    {
      if row.None? {
        row := Some(Row(token, true));
      } else {
        row := Some(row.value.(token := token, valid := true));
      }
    }

    method MarkTokenInvalid()
      modifies this
      ensures row == if old(row).None? then None else Some(Row(old(row).value.token, false))
    {
      if row.Some? {
        row := Some(row.value.(valid := false));
      }
    }
  }

  /** What ensure_access_token returns or raises; Unparsable is the error of the parser. */
  datatype Outcome =
    | Token(access: string)
    | AuthenticationRequired
    | UpstreamTimeout
    | UpstreamUnavailable
    | Unparsable

  /** What a refresh comes to: row is what stood in the store when it began. */
  ghost predicate Comes(outcome: Outcome, row: Option<Row>, answer: Answer) {
    var valid := row.Some? && row.value.valid;
    && (forall x :: outcome == Token(x) <==> valid && answer.Granted? && answer.access == x)
    && (outcome == AuthenticationRequired <==> !valid || answer == Refused)
    && (outcome == UpstreamTimeout <==>
          valid && (answer == Unreachable(true) || (answer.GrantedUnread? && answer.loss == TimedOut)))
    && (outcome == UpstreamUnavailable <==>
          && valid
          && (answer == Unreachable(false) || answer == Declined || (answer.GrantedUnread? && answer.loss == Broken)))
    && (outcome == Unparsable <==> valid && answer.GrantedUnread? && answer.loss == Malformed)
  }

  class RingConsumerClient {
    const store: RefreshTokenStore
    var access: Option<Access>

    constructor (store: RefreshTokenStore)
      ensures this.store == store && access == None
    {
      this.store, access := store, None;
    }

    /** The protocol state s has this client's fields, and the lock is free. */
    ghost predicate Shows(s: State)
      reads this, store
    {
      s.row == store.row && s.access == access && s.lock.None?
    }

    /** _refresh: exchanges the stored refresh token for a new access token. */
    method Refresh(got: real, answer: Answer) returns (outcome: Outcome)
      modifies this, store
      ensures Comes(outcome, old(store.row), answer)
      ensures access == if outcome.Token? then Some(Access(answer.access, got + answer.lifetime)) else old(access)
      ensures store.row == if outcome.Token? && answer.refresh.Some? then Some(Row(answer.refresh.value, true))
                           else if outcome.AuthenticationRequired? && old(store.row).Some?
                           then Some(Row(old(store.row).value.token, false))
                           else old(store.row)
    {
      var refresh := store.LoadToken();
      if refresh.None? {
        return AuthenticationRequired;
      }
      match answer
      case Unreachable(timedOut) => outcome := if timedOut then UpstreamTimeout else UpstreamUnavailable;
      case Refused =>
        store.MarkTokenInvalid();
        outcome := AuthenticationRequired;
      case Declined => outcome := UpstreamUnavailable;
      case Granted(token, lifetime, rotated) =>
        if rotated.Some? && rotated.value != refresh.value {
          store.RotateToken(rotated.value);
        }
        access := Some(Access(token, got + lifetime));
        outcome := Token(token);
      case GrantedUnread(_, loss) =>
        outcome := if loss == TimedOut then UpstreamTimeout
        else if loss == Broken then UpstreamUnavailable else Unparsable;
    }

    /** ensure_access_token while no other caller holds the lock: a token with more than a
        minute left is returned as it is; otherwise the caller gets the new token exactly if
        the row is valid and the server grants one, and the error of the answer if not. */
    method EnsureAccessToken(now: real, sent: real, got: real, answer: Answer, ghost s: State, ghost t: Id)
      returns (outcome: Outcome)
      requires Shows(s) && t !in s.tasks
      modifies this, store
      ensures Shows(Alone(s, t, now, sent, got, answer))
      ensures old(access).Some? && old(access).value.expiresAt - now > 60.0 ==>
                outcome == Token(old(access).value.token) && access == old(access) && store.row == old(store.row)
      ensures old(access).None? || old(access).value.expiresAt - now <= 60.0 ==>
                && Comes(outcome, old(store.row), answer)
                && access == (if outcome.Token? then Some(Access(answer.access, got + answer.lifetime))
                              else old(access))
                && store.row == if outcome.Token? && answer.refresh.Some? then Some(Row(answer.refresh.value, true))
                                else if outcome.AuthenticationRequired? && old(store.row).Some?
                                then Some(Row(old(store.row).value.token, false))
                                else old(store.row)
    {
      if access.Some? && access.value.expiresAt - now > THRESHOLD {
        assert !At(DoAcquire(Goto(s, t, Waiting), t, now), t, Loading);
        return Token(access.value.token);
      }
      RenewedIs(DoAcquire(Goto(s, t, Waiting), t, now), t, sent, got, answer);
      outcome := Refresh(got, answer);
    }
  }
}
