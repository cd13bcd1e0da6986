/** The in-memory token cache and the keychain slot behind it
    (DefaultKeychainService.swift, DefaultAuthService.swift, BackendAuthService.swift).
    Each method is a stretch between two awaits, so calls may interleave in any order. */
module TokenKeychain {
  import opened Common

  datatype Token = Token(access: string, refresh: string, expiresAt: real)

  predicate IsExpired(t: Token, now: real) {
    now >= t.expiresAt
  }

  predicate NeedsRefresh(t: Token, now: real) {
    now >= t.expiresAt - 60.0
  }

  /** What the Security framework lets through: delete and add may fail at will, and
      an add onto an existing item always does. */
  datatype Backend = Backend(canDelete: bool, canAdd: bool, canRead: bool)

  class KeychainService {
    var slot: Option<Token>

    constructor ()
      ensures slot == None
    {
      slot := None;
    }

    /** save: delete, with its status ignored, then add.  When it fails the slot holds
        what it held before or nothing. */
    method Save(token: Token, os: Backend) returns (ok: bool)
      modifies this
      ensures ok <==> os.canAdd && (os.canDelete || old(slot).None?)
      ensures slot == if ok then Some(token) else if os.canDelete then None else old(slot)
    {
      if os.canDelete {
        slot := None;
      }
      if slot.Some? || !os.canAdd {
        return false;
      }
      slot := Some(token);
      ok := true;
    }

    /** load, with errors read as absence (`try?`). */
    method Load(os: Backend) returns (token: Option<Token>)
      ensures token == if os.canRead then slot else None
    {
      token := if os.canRead then slot else None;
    }

    method Delete(os: Backend)
      modifies this
      ensures slot == if os.canDelete then None else old(slot)
    {
      if os.canDelete {
        slot := None;
      }
    }
  }

  /** How the awaited exchange ends; OtherError also stands for a client secret that
      could not be loaded, for which no exchange is made. */
  datatype Reply = Received(token: Token) | Rejected | OtherError

  /** What getValidToken returns or throws; Threw is any error but `unauthorized`. */
  datatype Result = Valid(token: Token) | Unauthorized | Threw

  class AuthService {
    const keychain: KeychainService
    var cachedToken: Option<Token>

    /** A cached token t implies that the slot is empty or holds t. */
    ghost predicate Coherent()
      reads this, keychain
    {
      cachedToken.Some? && keychain.slot.Some? ==> keychain.slot == cachedToken
    }

    constructor (keychain: KeychainService)
      ensures this.keychain == keychain && cachedToken == None && Coherent()
    {
      this.keychain, cachedToken := keychain, None;
    }

    method IsAuthenticated(now: real, os: Backend) returns (yes: bool)
      requires Coherent()
      modifies this
      ensures Coherent()
      ensures yes <==> (old(cachedToken).Some? && now < old(cachedToken).value.expiresAt)
                       || (os.canRead && keychain.slot.Some? && now < keychain.slot.value.expiresAt)
      ensures cachedToken == if yes && (old(cachedToken).None? || old(cachedToken).value.expiresAt <= now)
                             then keychain.slot else old(cachedToken)
    {
      if cachedToken.Some? && !IsExpired(cachedToken.value, now) {
        return true;
      }
      var stored := keychain.Load(os);
      if stored.Some? && !IsExpired(stored.value, now) {
        cachedToken := stored;
        return true;
      }
      yes := false;
    }

    /** The two tries that both getValidToken methods begin with: the cached token if it has
        more than 60 s left, else the stored one if it can be read and has, which is then
        cached; else none. */
    method Usable(now: real, os: Backend) returns (token: Option<Token>)
      requires Coherent()
      modifies this
      ensures Coherent()
      ensures token == if old(cachedToken).Some? && old(cachedToken).value.expiresAt - now > 60.0 then old(cachedToken)
                       else if os.canRead && keychain.slot.Some? && keychain.slot.value.expiresAt - now > 60.0
                       then keychain.slot else None
      ensures cachedToken == if token.Some? then token else old(cachedToken)
    {
      if cachedToken.Some? && !IsExpired(cachedToken.value, now) && !NeedsRefresh(cachedToken.value, now) {
        return cachedToken;
      }
      var stored := keychain.Load(os);
      if stored.Some? && !IsExpired(stored.value, now) && !NeedsRefresh(stored.value, now) {
        cachedToken := stored;
        return stored;
      }
      token := None;
    }

    /** Third step of DefaultAuthService.getValidToken: the token to refresh with, if
        there is any.  BackendAuthService skips it and always fetches. */
    method Existing(os: Backend) returns (token: Option<Token>)
      requires Coherent()
      ensures token == if cachedToken.Some? then cachedToken else if os.canRead then keychain.slot else None
    {
      token := cachedToken;
      if token.None? {
        token := keychain.Load(os);
      }
    }

    /** storeToken: the cache follows exactly if the keychain took the token. */
    method StoreToken(token: Token, os: Backend) returns (ok: bool)
      requires Coherent()
      modifies this, keychain
      ensures Coherent()
      ensures ok <==> os.canAdd && (os.canDelete || old(keychain.slot).None?)
      ensures cachedToken == if ok then Some(token) else old(cachedToken)
      ensures keychain.slot == if ok then Some(token) else if os.canDelete then None else old(keychain.slot)
    {
      ok := keychain.Save(token, os);
      if ok {
        cachedToken := Some(token);
      }
    }

    /** What follows the await of a refresh (DefaultAuthService) or of a fetch
        (BackendAuthService): a token that arrives is returned exactly if the keychain takes
        it, and is cached then; a 401 clears both; any other error changes nothing. */
    method Replied(reply: Reply, os: Backend) returns (result: Result)
      requires Coherent()
      modifies this, keychain
      ensures Coherent()
      ensures reply.Received? ==>
                var stored := os.canAdd && (os.canDelete || old(keychain.slot).None?);
                && result == (if stored then Valid(reply.token) else Threw)
                && cachedToken == (if stored then Some(reply.token) else old(cachedToken))
                && keychain.slot == if stored then Some(reply.token)
                                    else if os.canDelete then None else old(keychain.slot)
      ensures reply.Rejected? ==>
                && result == Unauthorized && cachedToken.None?
                && keychain.slot == if os.canDelete then None else old(keychain.slot)
      ensures reply.OtherError? ==>
                result == Threw && cachedToken == old(cachedToken) && keychain.slot == old(keychain.slot)
    {
      match reply
      case Received(received) =>
        var ok := StoreToken(received, os);
        result := if ok then Valid(received) else Threw;
      case Rejected =>
        Logout(os);
        result := Unauthorized;
      case OtherError => result := Threw;
    }

    method Logout(os: Backend)
      requires Coherent()
      modifies this, keychain
      ensures Coherent() && cachedToken.None?
      ensures keychain.slot == if os.canDelete then None else old(keychain.slot)
    {
      cachedToken := None;
      keychain.Delete(os);
    }
  }

  // ---- any number of calls, in any order ---------------------------------------------

  datatype Call =
    | Asks(now: real, os: Backend)
    | Looks(now: real, os: Backend)
    | Hears(reply: Reply, os: Backend)
    | Stores(token: Token, os: Backend)
    | LogsOut(os: Backend)

  /** The tokens that the calls bring in from outside. */
  ghost function Delivered(calls: seq<Call>): set<Option<Token>> {
    if calls == [] then {} else
      Delivered(calls[..|calls| - 1]) +
      match calls[|calls| - 1]
      case Hears(Received(token), _) => {Some(token)}
      case Stores(token, _) => {Some(token)}
      case _ => {}
  }

  /** Where the cache and the slot may have what they hold from. */
  ghost predicate ComesFrom(service: AuthService, known: set<Option<Token>>)
    reads service, service.keychain
  {
    service.cachedToken in known && service.keychain.slot in known
  }

  method RunCall(service: AuthService, call: Call, ghost known: set<Option<Token>>)
    requires service.Coherent() && ComesFrom(service, known) && None in known
    modifies service, service.keychain
    ensures service.Coherent() && ComesFrom(service, known + Delivered([call]))
  {
    match call
    case Asks(now, os) => var yes := service.IsAuthenticated(now, os);
    case Looks(now, os) => var token := service.Usable(now, os);
    case Hears(reply, os) => var result := service.Replied(reply, os);
    case Stores(token, os) => var ok := service.StoreToken(token, os);
    case LogsOut(os) => service.Logout(os);
  }

  /** On every run: the cache stays coherent, and neither cache nor slot ever holds a
      token that was not there at first and was not delivered since.  So once a logout
      has emptied both, nobody is authenticated until a new token is delivered. */
  method RunCalls(service: AuthService, calls: seq<Call>)
    requires service.Coherent()
    modifies service, service.keychain
    ensures service.Coherent()
    ensures ComesFrom(service, {None, old(service.cachedToken), old(service.keychain.slot)} + Delivered(calls))
  {
    ghost var first := {None, service.cachedToken, service.keychain.slot};
    for i := 0 to |calls|
      invariant service.Coherent()
      invariant ComesFrom(service, first + Delivered(calls[..i]))
    {
      RunCall(service, calls[i], first + Delivered(calls[..i]));
      assert calls[..i + 1][..i] == calls[..i];
    }
    assert calls[..|calls|] == calls;
  }

  /** getValidToken, with other calls let in while its exchange is awaited.  It returns the
      cached or the stored token, the first that has more than 60 s left, and then nothing
      else changes; else DefaultAuthService (`refreshes`) is unauthorized if it has no token
      at all; else the outcome is that of the exchange: the token just received if the
      keychain takes it, unauthorized with both cleared after a 401, or an error. */
  method GetValidToken(service: AuthService, refreshes: bool, now: real, os: Backend, again: Backend,
                       meanwhile: seq<Call>, reply: Reply, after: Backend)
    returns (result: Result, ghost slot: Option<Token>)
    requires service.Coherent()
    modifies service, service.keychain
    ensures service.Coherent()
    ensures var cached, stored := old(service.cachedToken), old(service.keychain.slot);
            var first := cached.Some? && cached.value.expiresAt - now > 60.0;
            var second := os.canRead && stored.Some? && stored.value.expiresAt - now > 60.0;
            var none := cached.None? && (!again.canRead || stored.None?);
            && (first ==>
                  result == Valid(cached.value) && service.cachedToken == cached && service.keychain.slot == stored)
            && (!first && second ==>
                  result == Valid(stored.value) && service.cachedToken == stored && service.keychain.slot == stored)
            && (!first && !second && refreshes && none ==>
                  result == Unauthorized && service.cachedToken == cached && service.keychain.slot == stored)
            && (!first && !second && !(refreshes && none) ==>
                  var taken := after.canAdd && (after.canDelete || slot.None?);
                  && (forall t :: result == Valid(t) <==> reply == Received(t) && taken)
                  && (result == Unauthorized <==> reply == Rejected)
                  && (result.Valid? ==> service.cachedToken == service.keychain.slot == Some(result.token))
                  && (result.Unauthorized? ==> service.cachedToken.None?)
                  && slot in {None, cached, stored} + Delivered(meanwhile))
  {
    slot := service.keychain.slot;
    var token := service.Usable(now, os);
    if token.Some? {
      return Valid(token.value), slot;
    }
    if refreshes {
      var existing := service.Existing(again);
      if existing.None? {
        return Unauthorized, slot;
      }
    }
    RunCalls(service, meanwhile);
    slot := service.keychain.slot;
    result := service.Replied(reply, after);
  }
}
