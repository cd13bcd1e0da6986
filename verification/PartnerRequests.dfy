/** The 429/401 loop of PartnerAPIClient.executeWithRetry and the device-code polling
    loop of DefaultAuthService.pollForAuthorization (both Swift). */
module PartnerRequests {
  import opened Common

  // ---- executeWithRetry ---------------------------------------------------------------

  datatype Response = Http(status: int, retryAfter: Option<real>) | NetworkError | NotHttp

  datatype Result = Returned(status: int) | Threw

  /** What one send was answered with, and what was done about it. */
  datatype Turn =
    | WaitedAsTold(delay: real)      // 429 with Retry-After
    | BackedOff(delay: real)         // 429 without
    | Refreshed(token: string)       // 401, and the refresher gave a token
    | Last

  const MAX_RETRIES := 3

  predicate Limited(t: Turn) {
    t.WaitedAsTold? || t.BackedOff?
  }

  function CountLimited(ts: seq<Turn>): nat {
    if ts == [] then 0 else CountLimited(ts[..|ts| - 1]) + if Limited(ts[|ts| - 1]) then 1 else 0
  }

  function CountBackedOff(ts: seq<Turn>): nat {
    if ts == [] then 0 else CountBackedOff(ts[..|ts| - 1]) + if ts[|ts| - 1].BackedOff? then 1 else 0
  }

  function CountRefreshed(ts: seq<Turn>): nat {
    if ts == [] then 0 else CountRefreshed(ts[..|ts| - 1]) + if ts[|ts| - 1].Refreshed? then 1 else 0
  }

  function BackoffWait(ts: seq<Turn>): real {
    if ts == [] then 0.0
    else BackoffWait(ts[..|ts| - 1]) + if ts[|ts| - 1].BackedOff? then ts[|ts| - 1].delay else 0.0
  }

  /** The bearer that the next send carries. */
  function Bearer(first: string, ts: seq<Turn>): string {
    if ts == [] then first
    else if ts[|ts| - 1].Refreshed? then ts[|ts| - 1].token
    else Bearer(first, ts[..|ts| - 1])
  }

  /** What the loop does with response r to a send after the turns ts. */
  function TurnFor(r: Response, ts: seq<Turn>, isAuth: bool, refreshed: Option<string>): Turn {
    if !r.Http? then Last
    else if r.status == 429 && CountLimited(ts) < MAX_RETRIES then
      if r.retryAfter.Some? then WaitedAsTold(r.retryAfter.value) else BackedOff(Pow2(CountBackedOff(ts)))
    else if r.status == 401 && !isAuth && CountRefreshed(ts) == 0 && refreshed.Some? then Refreshed(refreshed.value)
    else Last
  }

  lemma CountsOneMore(ts: seq<Turn>, t: Turn)
    ensures CountLimited(ts + [t]) == CountLimited(ts) + if Limited(t) then 1 else 0
    ensures CountBackedOff(ts + [t]) == CountBackedOff(ts) + if t.BackedOff? then 1 else 0
    ensures CountRefreshed(ts + [t]) == CountRefreshed(ts) + if t.Refreshed? then 1 else 0
    ensures BackoffWait(ts + [t]) == BackoffWait(ts) + if t.BackedOff? then t.delay else 0.0
  {
    assert (ts + [t])[..|ts|] == ts;
  }

  /** Every turn is what the loop does with its response, and every send carried the
      newest bearer. */
  ghost predicate History(responses: nat -> Response, first: string, isAuth: bool, refreshed: Option<string>,
                          turns: seq<Turn>, bearers: seq<string>)
  {
    && |bearers| == |turns|
    && forall i | 0 <= i < |turns| ::
         turns[i] == TurnFor(responses(i), turns[..i], isAuth, refreshed) && bearers[i] == Bearer(first, turns[..i])
  }

  lemma HistoryOneMore(responses: nat -> Response, first: string, isAuth: bool, refreshed: Option<string>,
                       turns: seq<Turn>, bearers: seq<string>)
    requires History(responses, first, isAuth, refreshed, turns, bearers)
    ensures History(responses, first, isAuth, refreshed,
                    turns + [TurnFor(responses(|turns|), turns, isAuth, refreshed)], bearers + [Bearer(first, turns)])
  {
    var ts := turns + [TurnFor(responses(|turns|), turns, isAuth, refreshed)];
    assert ts[..|turns|] == turns;
    forall i | 0 <= i < |turns| ensures ts[..i] == turns[..i] {
    }
  }

  lemma HistoryPrefix(responses: nat -> Response, first: string, isAuth: bool, refreshed: Option<string>,
                      turns: seq<Turn>, bearers: seq<string>, k: nat)
    requires History(responses, first, isAuth, refreshed, turns, bearers) && k <= |turns|
    ensures History(responses, first, isAuth, refreshed, turns[..k], bearers[..k])
  {
    forall i | 0 <= i < k ensures turns[..k][..i] == turns[..i] {
    }
  }

  /** Bounds on retries, refreshes and the waits of our own choosing. */
  predicate Bounded(isAuth: bool, refreshed: Option<string>, turns: seq<Turn>) {
    && CountBackedOff(turns) <= CountLimited(turns) <= MAX_RETRIES
    && CountRefreshed(turns) <= (if isAuth || refreshed.None? then 0 else 1)
    && |turns| == CountLimited(turns) + CountRefreshed(turns)
    && BackoffWait(turns) == Pow2(CountBackedOff(turns)) - 1.0
  }

  lemma BoundedOneMore(r: Response, isAuth: bool, refreshed: Option<string>, turns: seq<Turn>)
    requires Bounded(isAuth, refreshed, turns) && !TurnFor(r, turns, isAuth, refreshed).Last?
    ensures Bounded(isAuth, refreshed, turns + [TurnFor(r, turns, isAuth, refreshed)])
  {
    CountsOneMore(turns, TurnFor(r, turns, isAuth, refreshed));
  }

  /** Any history keeps the bounds. */
  lemma {:induction false} HistoryBounds(responses: nat -> Response, first: string, isAuth: bool,
                                         refreshed: Option<string>, turns: seq<Turn>, bearers: seq<string>)
    requires History(responses, first, isAuth, refreshed, turns, bearers)
    requires forall i | 0 <= i < |turns| :: !turns[i].Last?
    ensures Bounded(isAuth, refreshed, turns)
  {
    if turns == [] {
    } else {
      var k := |turns| - 1;
      var before := turns[..k];
      HistoryPrefix(responses, first, isAuth, refreshed, turns, bearers, k);
      HistoryBounds(responses, first, isAuth, refreshed, before, bearers[..k]);
      BoundedOneMore(responses(k), isAuth, refreshed, before);
      assert turns == before + [turns[k]];
    }
  }

  lemma BearerOneMore(first: string, ts: seq<Turn>, t: Turn)
    ensures Bearer(first, ts + [t]) == if t.Refreshed? then t.token else Bearer(first, ts)
  {
    assert (ts + [t])[..|ts|] == ts;
  }

  lemma BackoffAtMost7(n: nat)
    requires n <= MAX_RETRIES
    ensures Pow2(n) - 1.0 <= 7.0
  {
    assert Pow2(1) == 2.0 && Pow2(2) == 4.0 && Pow2(3) == 8.0;
  }

  /** What a finished loop has done: only the last turn ends it, the result is the last
      response, and the limits hold. */
  ghost predicate Finished(responses: nat -> Response, isAuth: bool, refreshed: Option<string>,
                           turns: seq<Turn>, result: Result)
  {
    && turns != [] && (forall i | 0 <= i < |turns| :: turns[i].Last? <==> i == |turns| - 1)
    && result == (if responses(|turns| - 1).Http? then Returned(responses(|turns| - 1).status) else Threw)
    && var retried := turns[..|turns| - 1];
       && CountRefreshed(retried) <= 1 && CountLimited(retried) <= MAX_RETRIES
       && BackoffWait(retried) <= 7.0
       && (result == Returned(429) ==> CountLimited(retried) == MAX_RETRIES)
       && (result == Returned(401) && refreshed.Some? && !isAuth ==> CountRefreshed(retried) == 1)
  }

  lemma LoopFinishes(responses: nat -> Response, first: string, isAuth: bool, refreshed: Option<string>,
                     turns: seq<Turn>, bearers: seq<string>)
    requires History(responses, first, isAuth, refreshed, turns, bearers)
    requires forall i | 0 <= i < |turns| :: !turns[i].Last?
    requires TurnFor(responses(|turns|), turns, isAuth, refreshed).Last?
    ensures var r := responses(|turns|);
            Finished(responses, isAuth, refreshed, turns + [Last], if r.Http? then Returned(r.status) else Threw)
    ensures |turns| + 1 <= if isAuth || refreshed.None? then 4 else 5
  {
    HistoryBounds(responses, first, isAuth, refreshed, turns, bearers);
    BackoffAtMost7(CountBackedOff(turns));
    assert (turns + [Last])[..|turns|] == turns;
  }

  /** Where the loop stands after the given turns. */
  ghost predicate Standing(responses: nat -> Response, bearer: string, isAuth: bool, refreshed: Option<string>,
                           turns: seq<Turn>, bearers: seq<string>,
                           current: string, retryCount: int, backoff: real, tried: bool)
  {
    && History(responses, bearer, isAuth, refreshed, turns, bearers)
    && (forall i | 0 <= i < |turns| :: !turns[i].Last?)
    && Counted(turns, bearer, current, retryCount, backoff, tried)
  }

  predicate Counted(turns: seq<Turn>, bearer: string, current: string, retryCount: int, backoff: real, tried: bool) {
    && current == Bearer(bearer, turns)
    && retryCount == CountLimited(turns) <= MAX_RETRIES
    && backoff == Pow2(CountBackedOff(turns))
    && CountRefreshed(turns) == if tried then 1 else 0
  }

  lemma CountedOneMore(turns: seq<Turn>, bearer: string, current: string,
                       retryCount: int, backoff: real, tried: bool, t: Turn)
    requires Counted(turns, bearer, current, retryCount, backoff, tried)
    requires (Limited(t) ==> retryCount < MAX_RETRIES) && (t.Refreshed? ==> !tried)
    ensures Counted(turns + [t], bearer,
                    if t.Refreshed? then t.token else current, if Limited(t) then retryCount + 1 else retryCount,
                    if t.BackedOff? then backoff * 2.0 else backoff, tried || t.Refreshed?)
  {
    CountsOneMore(turns, t);
    BearerOneMore(bearer, turns, t);
  }

  lemma TurnIs(responses: nat -> Response, bearer: string, isAuth: bool, refreshed: Option<string>,
               turns: seq<Turn>, bearers: seq<string>, current: string, retryCount: int, backoff: real, tried: bool)
    returns (turn: Turn)
    requires Standing(responses, bearer, isAuth, refreshed, turns, bearers, current, retryCount, backoff, tried)
    ensures turn == TurnFor(responses(|turns|), turns, isAuth, refreshed)
    ensures var r := responses(|turns|);
            turn ==
            if r.Http? && r.status == 429 && retryCount < MAX_RETRIES then
              if r.retryAfter.Some? then WaitedAsTold(r.retryAfter.value) else BackedOff(backoff)
            else if r.Http? && r.status == 401 && !isAuth && !tried && refreshed.Some? then Refreshed(refreshed.value)
            else Last
  {
    turn := TurnFor(responses(|turns|), turns, isAuth, refreshed);
  }

  lemma StandingOneMore(responses: nat -> Response, bearer: string, isAuth: bool, refreshed: Option<string>,
                        turns: seq<Turn>, bearers: seq<string>, current: string,
                        retryCount: int, backoff: real, tried: bool)
    requires Standing(responses, bearer, isAuth, refreshed, turns, bearers, current, retryCount, backoff, tried)
    requires !TurnFor(responses(|turns|), turns, isAuth, refreshed).Last?
    ensures var t := TurnFor(responses(|turns|), turns, isAuth, refreshed);
            Standing(responses, bearer, isAuth, refreshed, turns + [t], bearers + [current],
                     if t.Refreshed? then t.token else current, if Limited(t) then retryCount + 1 else retryCount,
                     if t.BackedOff? then backoff * 2.0 else backoff, tried || t.Refreshed?)
  {
    var t := TurnFor(responses(|turns|), turns, isAuth, refreshed);
    HistoryOneMore(responses, bearer, isAuth, refreshed, turns, bearers);
    CountedOneMore(turns, bearer, current, retryCount, backoff, tried, t);
  }

  lemma StandingEnds(responses: nat -> Response, bearer: string, isAuth: bool, refreshed: Option<string>,
                     turns: seq<Turn>, bearers: seq<string>, current: string,
                     retryCount: int, backoff: real, tried: bool)
    requires Standing(responses, bearer, isAuth, refreshed, turns, bearers, current, retryCount, backoff, tried)
    requires TurnFor(responses(|turns|), turns, isAuth, refreshed).Last?
    ensures History(responses, bearer, isAuth, refreshed, turns + [Last], bearers + [current])
    ensures var r := responses(|turns|);
            Finished(responses, isAuth, refreshed, turns + [Last], if r.Http? then Returned(r.status) else Threw)
    ensures |turns| + 1 <= if isAuth || refreshed.None? then 4 else 5
  {
    HistoryOneMore(responses, bearer, isAuth, refreshed, turns, bearers);
    LoopFinishes(responses, bearer, isAuth, refreshed, turns, bearers);
  }

  /** Turn by turn: a 429 is waited out, as told or by the backoff, as long as fewer than
      three were before; a 401 is followed by a refresh if there is a refresher, the endpoint
      is no auth endpoint and there was no refresh yet; anything else ends the loop. */
  ghost predicate Explains(turn: Turn, r: Response, before: seq<Turn>, isAuth: bool, refreshed: Option<string>) {
    var limited, unauthorized := r.Http? && r.status == 429 && CountLimited(before) < 3, r.Http? && r.status == 401;
    && (forall x :: turn == WaitedAsTold(x) <==> limited && r.retryAfter == Some(x))
    && (turn.BackedOff? <==> limited && r.retryAfter == None)
    && (turn.BackedOff? && (forall i | 0 <= i < |before| :: !before[i].BackedOff?) ==> turn.delay == 1.0)
    && (forall x :: turn == Refreshed(x) <==>
                      && unauthorized && !isAuth && refreshed == Some(x)
                      && forall i | 0 <= i < |before| :: !before[i].Refreshed?)
  }

  /** Each wait of the loop's own choice is twice the one before it. */
  ghost predicate Doubles(turns: seq<Turn>) {
    forall i, j | 0 <= i < j < |turns| && turns[i].BackedOff? && turns[j].BackedOff?
                  && (forall k | i < k < j :: !turns[k].BackedOff?) :: turns[j].delay == 2.0 * turns[i].delay
  }

  /** Each send carries the bearer of the one before it, or the token of the refresh between. */
  ghost predicate Carried(first: string, turns: seq<Turn>, bearers: seq<string>) {
    && |bearers| == |turns| && (bearers != [] ==> bearers[0] == first)
    && forall i | 0 <= i < |turns| - 1 :: bearers[i + 1] == if turns[i].Refreshed? then turns[i].token else bearers[i]
  }

  lemma {:induction false} NoneRefreshed(ts: seq<Turn>)
    ensures CountRefreshed(ts) == 0 <==> forall i | 0 <= i < |ts| :: !ts[i].Refreshed?
  {
    if ts != [] {
      NoneRefreshed(ts[..|ts| - 1]);
    }
  }

  lemma {:induction false} NoneBackedOff(ts: seq<Turn>, i: nat)
    requires i <= |ts| && forall k | i <= k < |ts| :: !ts[k].BackedOff?
    ensures CountBackedOff(ts) == CountBackedOff(ts[..i])
    decreases |ts|
  {
    if i == |ts| {
      assert ts[..i] == ts;
    } else {
      NoneBackedOff(ts[..|ts| - 1], i);
      assert ts[..|ts| - 1][..i] == ts[..i];
    }
  }

  lemma TurnExplained(responses: nat -> Response, first: string, isAuth: bool, refreshed: Option<string>,
                      turns: seq<Turn>, bearers: seq<string>, i: nat)
    requires History(responses, first, isAuth, refreshed, turns, bearers) && i < |turns|
    ensures Explains(turns[i], responses(i), turns[..i], isAuth, refreshed)
  {
    var before := turns[..i];
    NoneRefreshed(before);
    if forall k | 0 <= k < |before| :: !before[k].BackedOff? {
      NoneBackedOff(before, 0);
    }
  }

  lemma BackedOffBetween(turns: seq<Turn>, i: nat, j: nat)
    requires i < j < |turns| && turns[i].BackedOff? && forall k | i < k < j :: !turns[k].BackedOff?
    ensures CountBackedOff(turns[..j]) == CountBackedOff(turns[..i]) + 1
  {
    NoneBackedOff(turns[..j], i + 1);
    assert turns[..j][..i + 1] == turns[..i] + [turns[i]];
    CountsOneMore(turns[..i], turns[i]);
  }

  lemma BackoffWaits(responses: nat -> Response, first: string, isAuth: bool, refreshed: Option<string>,
                     turns: seq<Turn>, bearers: seq<string>, i: nat)
    requires History(responses, first, isAuth, refreshed, turns, bearers) && i < |turns| && turns[i].BackedOff?
    ensures turns[i].delay == Pow2(CountBackedOff(turns[..i]))
  {
  }

  lemma WaitsDouble(responses: nat -> Response, first: string, isAuth: bool, refreshed: Option<string>,
                    turns: seq<Turn>, bearers: seq<string>)
    requires History(responses, first, isAuth, refreshed, turns, bearers)
    ensures Doubles(turns)
  {
    forall i, j | 0 <= i < j < |turns| && turns[i].BackedOff? && turns[j].BackedOff?
                  && (forall k | i < k < j :: !turns[k].BackedOff?)
      ensures turns[j].delay == 2.0 * turns[i].delay
    {
      BackoffWaits(responses, first, isAuth, refreshed, turns, bearers, i);
      BackoffWaits(responses, first, isAuth, refreshed, turns, bearers, j);
      BackedOffBetween(turns, i, j);
    }
  }

  lemma BearersCarried(responses: nat -> Response, first: string, isAuth: bool, refreshed: Option<string>,
                       turns: seq<Turn>, bearers: seq<string>)
    requires History(responses, first, isAuth, refreshed, turns, bearers)
    ensures Carried(first, turns, bearers)
  {
    forall i | 0 <= i < |turns| - 1
      ensures bearers[i + 1] == if turns[i].Refreshed? then turns[i].token else bearers[i]
    {
      assert turns[..i + 1] == turns[..i] + [turns[i]];
      BearerOneMore(first, turns[..i], turns[i]);
    }
  }

  lemma HistoryExplained(responses: nat -> Response, first: string, isAuth: bool, refreshed: Option<string>,
                         turns: seq<Turn>, bearers: seq<string>)
    requires History(responses, first, isAuth, refreshed, turns, bearers)
    ensures forall i | 0 <= i < |turns| :: Explains(turns[i], responses(i), turns[..i], isAuth, refreshed)
    ensures Doubles(turns) && Carried(first, turns, bearers)
  {
    forall i | 0 <= i < |turns| ensures Explains(turns[i], responses(i), turns[..i], isAuth, refreshed) {
      TurnExplained(responses, first, isAuth, refreshed, turns, bearers, i);
    }
    WaitsDouble(responses, first, isAuth, refreshed, turns, bearers);
    BearersCarried(responses, first, isAuth, refreshed, turns, bearers);
  }

  /** The loop over any responses: it ends within five sends, four on auth endpoints or
      without a refresher; it refreshes at most once; it gives a 429 back only after
      three retries; without Retry-After it waits 7 s at most; and each send carries
      the newest bearer. */
  method ExecuteWithRetry(responses: nat -> Response, bearer: string, isAuth: bool, refreshed: Option<string>)
    returns (result: Result, turns: seq<Turn>, bearers: seq<string>)
    ensures 1 <= |turns| <= if isAuth || refreshed.None? then 4 else 5
    ensures History(responses, bearer, isAuth, refreshed, turns, bearers)
    ensures forall i | 0 <= i < |turns| :: Explains(turns[i], responses(i), turns[..i], isAuth, refreshed)
    ensures Doubles(turns) && Carried(bearer, turns, bearers)
    ensures Finished(responses, isAuth, refreshed, turns, result)
  {
    turns, bearers := [], [];
    var current, retryCount, backoff, tried := bearer, 0, 1.0, false;
    while true
      invariant Standing(responses, bearer, isAuth, refreshed, turns, bearers, current, retryCount, backoff, tried)
      decreases MAX_RETRIES - retryCount, !tried
    {
      var r := responses(|turns|);
      ghost var turn := TurnIs(responses, bearer, isAuth, refreshed,
                               turns, bearers, current, retryCount, backoff, tried);
      if !turn.Last? {
        StandingOneMore(responses, bearer, isAuth, refreshed, turns, bearers, current, retryCount, backoff, tried);
      } else {
        StandingEnds(responses, bearer, isAuth, refreshed, turns, bearers, current, retryCount, backoff, tried);
      }
      bearers := bearers + [current];
      if r.Http? && r.status == 429 && retryCount < MAX_RETRIES {
        retryCount := retryCount + 1;
        if r.retryAfter.Some? {
          turns := turns + [WaitedAsTold(r.retryAfter.value)];
        } else {
          turns := turns + [BackedOff(backoff)];
          backoff := backoff * 2.0;
        }
      } else if r.Http? && r.status == 401 && !isAuth && !tried && refreshed.Some? {
        tried := true;
        current := refreshed.value;
        turns := turns + [Refreshed(current)];
      } else {
        turns := turns + [Last];
        result := if r.Http? then Returned(r.status) else Threw;
        HistoryExplained(responses, bearer, isAuth, refreshed, turns, bearers);
        return;
      }
    }
  }

  // ---- pollForAuthorization ---------------------------------------------------------------

  /** The token was granted and stored, or anything else went wrong (Failed). */
  datatype Poll = Pending | SlowDown | Granted | Failed

  datatype Verdict = Authorized | Error | Polling

  predicate Goes(p: Poll) {
    p.Pending? || p.SlowDown?
  }

  function SlowDowns(ps: seq<Poll>): nat {
    if ps == [] then 0 else SlowDowns(ps[..|ps| - 1]) + if ps[|ps| - 1].SlowDown? then 1 else 0
  }

  /** How often a pending reply comes after a slow_down reply, over all such pairs. */
  function LatePairs(ps: seq<Poll>): nat {
    if ps == [] then 0
    else LatePairs(ps[..|ps| - 1]) + if ps[|ps| - 1].Pending? then SlowDowns(ps[..|ps| - 1]) else 0
  }

  function Sum(waits: seq<int>): int {
    if waits == [] then 0 else Sum(waits[..|waits| - 1]) + waits[|waits| - 1]
  }

  lemma PollOneMore(ps: seq<Poll>, p: Poll)
    ensures SlowDowns(ps + [p]) == SlowDowns(ps) + if p.SlowDown? then 1 else 0
    ensures LatePairs(ps + [p]) == LatePairs(ps) + if p.Pending? then SlowDowns(ps) else 0
  {
    assert (ps + [p])[..|ps|] == ps;
  }

  /** The wait after reply i: 5 s, and 5 s more for each slow_down so far. */
  function Interval(ps: seq<Poll>, i: nat): int
    requires i < |ps|
  {
    5 + 5 * (SlowDowns(ps[..i]) + if ps[i].SlowDown? then 1 else 0)
  }

  /** The law of section 3.5 of RFC 8628: each slow_down adds 5 s to this and all later
      waits. */
  predicate FollowsRfc8628(ps: seq<Poll>, waits: seq<int>) {
    |waits| == |ps| && forall i | 0 <= i < |waits| :: waits[i] == Interval(ps, i)
  }

  lemma {:induction false} IntervalsGrow(ps: seq<Poll>, i: nat, j: nat)
    requires i <= j < |ps|
    ensures 5 <= Interval(ps, i) <= Interval(ps, j)
    decreases j - i
  {
    if i < j {
      IntervalsGrow(ps, i, j - 1);
      assert ps[..j][..j - 1] == ps[..j - 1];
    }
  }

  lemma NeverFaster(ps: seq<Poll>, waits: seq<int>, i: nat, j: nat)
    requires FollowsRfc8628(ps, waits) && i <= j < |waits|
    ensures 5 <= waits[i] <= waits[j]
  {
    IntervalsGrow(ps, i, j);
  }

  /** The law, wait by wait: the first one is 5 s, and each slow_down adds 5 s to this and all
      later waits, while a pending reply adds nothing. */
  ghost predicate Paced(ps: seq<Poll>, waits: seq<int>) {
    && |waits| == |ps|
    && (ps != [] ==> waits[0] == if ps[0].SlowDown? then 10 else 5)
    && forall i | 0 < i < |ps| :: waits[i] == waits[i - 1] + if ps[i].SlowDown? then 5 else 0
  }

  lemma FollowsPaced(ps: seq<Poll>, waits: seq<int>)
    requires FollowsRfc8628(ps, waits)
    ensures Paced(ps, waits)
  {
    forall i | 0 < i < |ps| ensures waits[i] == waits[i - 1] + if ps[i].SlowDown? then 5 else 0 {
      assert ps[..i][..i - 1] == ps[..i - 1];
    }
  }

  lemma FollowsInit(ps: seq<Poll>, waits: seq<int>)
    requires FollowsRfc8628(ps, waits) && ps != []
    ensures FollowsRfc8628(ps[..|ps| - 1], waits[..|ps| - 1]) && waits[|ps| - 1] == Interval(ps, |ps| - 1)
  {
    var init := ps[..|ps| - 1];
    forall i | 0 <= i < |init| ensures Interval(init, i) == Interval(ps, i) {
      assert init[..i] == ps[..i];
    }
  }

  lemma FollowsOneMore(ps: seq<Poll>, waits: seq<int>, p: Poll)
    requires FollowsRfc8628(ps, waits)
    ensures FollowsRfc8628(ps + [p], waits + [Interval(ps + [p], |ps|)])
    ensures Interval(ps + [p], |ps|) == 5 + 5 * SlowDowns(ps + [p])
  {
    var qs := ps + [p];
    PollOneMore(ps, p);
    assert qs[..|ps|] == ps;
    forall i | 0 <= i < |ps| ensures Interval(qs, i) == Interval(ps, i) {
      assert qs[..i] == ps[..i];
    }
  }

  /** 1 + 2 + ... + n. */
  function Triangle(n: nat): nat {
    if n == 0 then 0 else Triangle(n - 1) + n
  }

  lemma {:induction false} TriangleIs(n: nat)
    ensures 2 * Triangle(n) == n * (n + 1)
  {
    if n > 0 {
      TriangleIs(n - 1);
    }
  }

  /** The exact total: with p pending and s slow_down replies it is 5(p + s) +
      5 s (s + 1) / 2, and 5 more for each pending reply after a slow_down. */
  lemma {:induction false} TotalWait(ps: seq<Poll>, waits: seq<int>)
    requires FollowsRfc8628(ps, waits) && forall i | 0 <= i < |ps| :: Goes(ps[i])
    ensures Sum(waits) == 5 * |ps| + 5 * Triangle(SlowDowns(ps)) + 5 * LatePairs(ps)
    ensures 2 * Triangle(SlowDowns(ps)) == SlowDowns(ps) * (SlowDowns(ps) + 1)
  {
    TriangleIs(SlowDowns(ps));
    if ps == [] {
    } else {
      FollowsInit(ps, waits);
      TotalWait(ps[..|ps| - 1], waits[..|ps| - 1]);
      assert Goes(ps[|ps| - 1]);
    }
  }

  /** The loop over the given replies: it waits after each pending or slow_down reply
      as the law says and stops at the first other one. */
  method PollForAuthorization(replies: seq<Poll>) returns (verdict: Verdict, waits: seq<int>)
    ensures |waits| <= |replies| && FollowsRfc8628(replies[..|waits|], waits) && Paced(replies[..|waits|], waits)
    ensures forall i | 0 <= i < |waits| :: Goes(replies[i])
    ensures verdict.Polling? <==> |waits| == |replies|
    ensures !verdict.Polling? ==> !Goes(replies[|waits|]) && (verdict.Authorized? <==> replies[|waits|].Granted?)
  {
    var currentInterval := 5;
    waits := [];
    for i := 0 to |replies|
      invariant |waits| == i && FollowsRfc8628(replies[..i], waits)
      invariant currentInterval == 5 + 5 * SlowDowns(replies[..i])
      invariant forall k | 0 <= k < i :: Goes(replies[k])
    {
      PollOneMore(replies[..i], replies[i]);
      FollowsOneMore(replies[..i], waits, replies[i]);
      assert replies[..i + 1] == replies[..i] + [replies[i]];
      match replies[i]
      case Pending => waits := waits + [currentInterval];
      case SlowDown =>
        currentInterval := currentInterval + 5;
        waits := waits + [currentInterval];
      case Granted =>
        FollowsPaced(replies[..i], waits);
        return Authorized, waits;
      case Failed =>
        FollowsPaced(replies[..i], waits);
        return Error, waits;
    }
    verdict := Polling;
    FollowsPaced(replies[..|waits|], waits);
  }
}
