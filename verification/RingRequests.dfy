/** The bounded-retry loop of RingConsumerClient._request (ring_consumer_client.py). */
module RingRequests {
  import opened Common

  /** One attempt: an HTTP status with its parsed Retry-After, or no response. */
  datatype Reply = Status(code: int, retryAfter: Option<real>) | TimedOut | TransportFailed

  datatype Outcome =
    | RateLimited | NoToken                 // before the first send
    | Response(code: int)
    | Unavailable | UpstreamTimeout
    | StillTrying                           // the given replies are used up

  datatype Nap = Nap(base: real, jitter: real)

  const MAX_5XX_RETRIES := 2
  const MAX_BACKOFF := 30.0

  predicate Is5xx(r: Reply) {
    r.Status? && 500 <= r.code < 600
  }

  predicate Is429(r: Reply) {
    r.Status? && r.code == 429
  }

  predicate UsesBackoff(r: Reply) {
    Is5xx(r) || (Is429(r) && r.retryAfter.None?)
  }

  datatype Kind = Limited | ServerError | BackedOff

  predicate IsKind(r: Reply, kind: Kind) {
    match kind
    case Limited => Is429(r)
    case ServerError => Is5xx(r)
    case BackedOff => UsesBackoff(r)
  }

  function Count(rs: seq<Reply>, kind: Kind): nat {
    if rs == [] then 0 else Count(rs[..|rs| - 1], kind) + if IsKind(rs[|rs| - 1], kind) then 1 else 0
  }

  lemma CountOneMore(rs: seq<Reply>, k: nat, kind: Kind)
    requires k < |rs|
    ensures Count(rs[..k + 1], kind) == Count(rs[..k], kind) + if IsKind(rs[k], kind) then 1 else 0
  {
    assert rs[..k + 1][..k] == rs[..k];
  }

  function Min(a: real, b: real): real {
    if a < b then a else b
  }

  /** The n-th backoff: 2^n seconds, at most 30. */
  function Backoff(n: nat): real {
    Min(Pow2(n), MAX_BACKOFF)
  }

  lemma {:induction false} BackoffDoubles(n: nat)
    ensures Backoff(n + 1) == Min(2.0 * Backoff(n), MAX_BACKOFF)
    ensures 1.0 <= Backoff(n) <= MAX_BACKOFF && Min(Backoff(n), MAX_BACKOFF) == Backoff(n)
  {
    if n > 0 {
      BackoffDoubles(n - 1);
      PowGrows(n - 1);
    }
  }

  lemma {:induction false} PowGrows(n: nat)
    ensures 1.0 <= Pow2(n)
  {
    if n > 0 {
      PowGrows(n - 1);
    }
  }

  /** The reply leads to another attempt, after the replies before it. */
  predicate Retried(before: seq<Reply>, r: Reply) {
    Is429(r) || (Is5xx(r) && Count(before, ServerError) < MAX_5XX_RETRIES)
  }

  /** The reply says how long to wait. */
  predicate Tells(r: Reply) {
    r.Status? && r.code == 429 && r.retryAfter.Some?
  }

  /** The nap after reply i: what a 429 says, or else min(2^n, 30) seconds, n the naps before
      it that used the backoff; with a jitter of up to 0.25 s after a 5xx and none after a 429. */
  predicate NapFits(rs: seq<Reply>, i: nat, nap: Nap)
    requires i < |rs|
  {
    && nap.base == (if Tells(rs[i]) then rs[i].retryAfter.value else Backoff(Count(rs[..i], BackedOff)))
    && (if Is5xx(rs[i]) then 0.0 <= nap.jitter <= 0.25 else nap.jitter == 0.0)
  }

  /** The first |naps| replies were each retried, each after its nap. */
  predicate Retries(replies: seq<Reply>, naps: seq<Nap>) {
    && |naps| <= |replies|
    && (forall i | 0 <= i < |naps| :: Retried(replies[..i], replies[i]) && NapFits(replies, i, naps[i]))
  }

  /** What the call comes to after the reply that ended the loop: a timeout and a transport
      error are told apart, a third 5xx makes it unavailable, any other status is returned. */
  ghost predicate Comes(outcome: Outcome, last: Reply) {
    && (outcome == UpstreamTimeout <==> last == TimedOut)
    && (outcome == Unavailable <==> last == TransportFailed || (last.Status? && 500 <= last.code < 600))
    && (forall code :: outcome == Response(code) <==>
                         last.Status? && last.code == code && !(500 <= last.code < 600))
  }

  lemma RetriesOneMore(replies: seq<Reply>, naps: seq<Nap>, nap: Nap)
    requires Retries(replies, naps) && |naps| < |replies|
    requires Retried(replies[..|naps|], replies[|naps|]) && NapFits(replies, |naps|, nap)
    ensures Retries(replies, naps + [nap])
  {
  }

  lemma {:induction false} RetriesCount(replies: seq<Reply>, naps: seq<Nap>)
    requires Retries(replies, naps)
    ensures Count(replies[..|naps|], ServerError) <= MAX_5XX_RETRIES
    ensures |naps| == Count(replies[..|naps|], Limited) + Count(replies[..|naps|], ServerError)
  {
    if naps == [] {
    } else {
      var k := |naps| - 1;
      RetriesCount(replies, naps[..k]);
      assert Retried(replies[..k], replies[k]);
      CountOneMore(replies, k, Limited);
      CountOneMore(replies, k, ServerError);
    }
  }

  lemma {:induction false} NoBackoffBefore(replies: seq<Reply>, naps: seq<Nap>, i: nat, j: nat)
    requires Retries(replies, naps) && i <= j <= |naps| && forall k | i <= k < j :: Tells(replies[k])
    ensures Count(replies[..j], BackedOff) == Count(replies[..i], BackedOff)
    decreases j - i
  {
    if i < j {
      NoBackoffBefore(replies, naps, i, j - 1);
      CountOneMore(replies, j - 1, BackedOff);
      assert Tells(replies[j - 1]);
    }
  }

  /** The first nap of the loop's own choice is one second ... */
  lemma FirstOwnNap(replies: seq<Reply>, naps: seq<Nap>, j: nat)
    requires Retries(replies, naps) && j < |naps|
    requires !Tells(replies[j]) && forall k | 0 <= k < j :: Tells(replies[k])
    ensures naps[j].base == 1.0
  {
    NoBackoffBefore(replies, naps, 0, j);
  }

  /** ... and each further one is twice the one before it, up to 30 seconds; the naps that a
      Retry-After asks for in between do not count. */
  lemma OwnNapsDouble(replies: seq<Reply>, naps: seq<Nap>, i: nat, j: nat)
    requires Retries(replies, naps) && i < j < |naps|
    requires !Tells(replies[i]) && !Tells(replies[j]) && forall k | i < k < j :: Tells(replies[k])
    ensures naps[j].base == if 2.0 * naps[i].base < 30.0 then 2.0 * naps[i].base else 30.0
  {
    assert Retried(replies[..i], replies[i]);
    NoBackoffBefore(replies, naps, i + 1, j);
    CountOneMore(replies, i, BackedOff);
    BackoffDoubles(Count(replies[..i], BackedOff));
  }

  /** The whole loop: one slot, and one send for each retried reply plus one; a third
      5xx, and no other status, makes it unavailable. */
  method Request(slot: bool, token: Option<string>, replies: seq<Reply>, jitter: nat -> real)
    returns (outcome: Outcome, slots: nat, sends: nat, naps: seq<Nap>)
    requires forall i :: 0.0 <= jitter(i) <= 0.25
    ensures slots == if slot then 1 else 0
    ensures !slot <==> outcome == RateLimited
    ensures slot && token.None? <==> outcome == NoToken
    ensures outcome == RateLimited || outcome == NoToken ==> sends == 0 && naps == []
    ensures Retries(replies, naps)
    ensures outcome.StillTrying? ==> sends == |naps| == |replies|
    ensures slot && token.Some? && !outcome.StillTrying? ==>
              && sends == |naps| + 1 <= |replies|
              && !Retried(replies[..|naps|], replies[|naps|])
              && Comes(outcome, replies[|naps|])
              && (Is5xx(replies[|naps|]) ==> Count(replies[..|naps|], ServerError) == 2)
    ensures Count(replies[..|naps|], ServerError) <= 2
    ensures |naps| == Count(replies[..|naps|], Limited) + Count(replies[..|naps|], ServerError)
  {
    slots, sends, naps := 0, 0, [];
    if !slot {
      return RateLimited, slots, sends, naps;
    }
    slots := 1;
    if token.None? {
      return NoToken, slots, sends, naps;
    }
    var attempt5xx, backoff := 0, 1.0;
    while sends < |replies|
      invariant |naps| == sends <= |replies| && Retries(replies, naps)
      invariant attempt5xx == Count(replies[..sends], ServerError)
      invariant backoff == Backoff(Count(replies[..sends], BackedOff))
    {
      var response := replies[sends];
      BackoffDoubles(Count(replies[..sends], BackedOff));
      RetriesCount(replies, naps);
      CountOneMore(replies, sends, ServerError);
      CountOneMore(replies, sends, BackedOff);
      sends := sends + 1;
      if !response.Status? {
        outcome := if response.TimedOut? then UpstreamTimeout else Unavailable;
        return;
      }
      var nap := Nap(Min(backoff, MAX_BACKOFF), 0.0);
      if response.code == 429 {
        if response.retryAfter.Some? {
          nap := Nap(response.retryAfter.value, 0.0);
        } else {
          backoff := Min(backoff * 2.0, MAX_BACKOFF);
        }
      } else if 500 <= response.code < 600 {
        if attempt5xx >= MAX_5XX_RETRIES {
          return Unavailable, slots, sends, naps;
        }
        attempt5xx := attempt5xx + 1;
        nap := Nap(nap.base, jitter(sends));
        backoff := Min(backoff * 2.0, MAX_BACKOFF);
      } else {
        return Response(response.code), slots, sends, naps;
      }
      RetriesOneMore(replies, naps, nap);
      naps := naps + [nap];
    }
    outcome := StillTrying;
    RetriesCount(replies, naps);
  }
}
