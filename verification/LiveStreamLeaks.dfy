/** Who is to blame for a leaked entry: on every run, the coroutine that answered for it. */
module LiveStreamLeaks {
  import opened Common
  import SC = Sidecar
  import opened LiveStream
  import opened LiveStreamOwnership
  import opened LiveStreamOrphans

  predicate MadeBy(s: State, b: Id, req: Id) {
    req in s.sidecar.replies && s.sidecar.replies[req] == SC.Created(b)
  }

  /** A coroutine is abandoned that holds the entry b, is about to stop it, or still awaits
      the reply to the POST req. */
  predicate GivesUpOn(s: State, l: Label, b: Id, req: Id) {
    l.Abandoned? && l.t in s.tasks &&
    match s.tasks[l.t]
    case AwaitingStart(_, r) => r == req
    case HoldingReply(_, x) => x == b
    case CleaningUp(x, _) => x == b
    case Deleting(_, x, _) => x == b
    case Closing(bs, _) => b in bs
    case _ => false
  }

  ghost predicate GivenUp(s: State, ls: seq<Label>, b: Id, req: Id)
    requires Run(s, ls)
    decreases |ls|
  {
    ls != [] && (GivesUpOn(s, ls[0], b, req) || GivenUp(Next(s, ls[0]), ls[1..], b, req))
  }

  // ---- every entry was made by one POST ------------------------------------------------

  ghost predicate Made(s: State) {
    && (forall r, b {:trigger MadeBy(s, b, r)} :: MadeBy(s, b, r) ==> b in s.fate)
    && (forall r, q, b {:trigger MadeBy(s, b, r), MadeBy(s, b, q)} :: MadeBy(s, b, r) && MadeBy(s, b, q) ==> r == q)
    && (forall b | b in s.fate :: exists r :: MadeBy(s, b, r))
  }

  /** From s to u no entry leaks, no POST is sent and every caller that waits goes on
      waiting. */
  ghost predicate Quiet(s: State, u: State) {
    && u.sidecar == s.sidecar && u.fate.Keys == s.fate.Keys
    && (forall b | b in s.fate && u.fate[b].Leaked? :: s.fate[b].Leaked?)
    && (forall r | StillAwaited(s, r) :: StillAwaited(u, r))
    && (forall r | r in u.inbox && u.inbox[r].PostSession? :: r in s.inbox && s.inbox[r].PostSession?)
  }

  lemma HandoverQuiet(s: State, u: State, bridge: Id, from: Fate, to: Fate)
    requires Quiet(s, u) && !to.Leaked?
    ensures Quiet(s, Handover(u, bridge, from, to))
  {
  }

  lemma SetQuiet(s: State, t: Id, task: Task)
    requires t in s.tasks ==> !s.tasks[t].AwaitingStart?
    ensures Quiet(s, SetTask(s, t, task))
  {
  }

  lemma EndQuiet(s: State, t: Id)
    requires t in s.tasks ==> !s.tasks[t].AwaitingStart?
    ensures Quiet(s, EndTask(s, t))
  {
  }

  /** Only sidecar, fates, tasks, callers and inbox matter. */
  lemma SameQuiet(s: State, v: State, u: State)
    requires Quiet(s, v) && u.sidecar == v.sidecar && u.fate == v.fate && u.tasks == v.tasks
    requires u.callers == v.callers && u.inbox == v.inbox
    ensures Quiet(s, u)
  {
    assert forall r :: StillAwaited(u, r) == StillAwaited(v, r);
  }

  lemma CreateQuiet(s: State, t: Id, device: Device)
    requires KeysUsed(s) && Enabled(s, CreateBegins(t, device))
    ensures Quiet(s, DoCreateBegins(s, t, device))
  {
    SetQuiet(s, t, LoadingToken(device));
  }

  lemma BindQuiet(s: State, t: Id, sid: Id)
    requires Enabled(s, Bind(t, sid))
    ensures Quiet(s, DoBind(s, t, sid))
  {
    var bridge := s.tasks[t].bridge;
    var task := AwaitingWhep(sid, bridge);
    SetQuiet(s, t, task);
    HandoverQuiet(s, SetTask(s, t, task), bridge, HeldBy(t), InMap(sid));
    SameQuiet(s, Handover(SetTask(s, t, task), bridge, HeldBy(t), InMap(sid)), DoBind(s, t, sid));
  }

  lemma WhepQuiet(s: State, t: Id, audio: bool)
    requires Enabled(s, WhepAccepted(t, audio))
    ensures Quiet(s, DoWhepAccepted(s, t, audio)) && Quiet(s, DoWhepFailed(s, t))
  {
    var sid, bridge := s.tasks[t].sid, s.tasks[t].bridge;
    EndQuiet(s, t);
    SameQuiet(s, EndTask(s, t), DoWhepAccepted(s, t, audio));
    var v := SetTask(s, t, CleaningUp(bridge, Unsent));
    SetQuiet(s, t, CleaningUp(bridge, Unsent));
    HandoverQuiet(s, v, bridge, InMap(sid), StopPending(t));
    SameQuiet(s, Handover(v, bridge, InMap(sid), StopPending(t)), DoWhepFailed(s, t));
  }

  lemma DeleteQuiet(s: State, t: Id, sid: Id)
    requires KeysUsed(s) && Enabled(s, DeleteBegins(t, sid))
    ensures Quiet(s, DoDeleteBegins(s, t, sid))
  {
    if sid in s.sessions {
      SetQuiet(s, t, Deleting(sid, s.sessions[sid].bridge, Unsent));
    }
  }

  lemma CloseQuiet(s: State, t: Id, order: seq<Id>)
    requires KeysUsed(s) && Enabled(s, CloseBegins(t, order))
    ensures Quiet(s, DoCloseBegins(s, t, order))
  {
  }

  lemma StopSentQuiet(s: State, t: Id, req: Id)
    requires Enabled(s, StopSent(t, req))
    ensures Quiet(s, DoStopSent(s, t, req))
  {
    SetQuiet(s, t, s.tasks[t].(stop := Sent(req)));
  }

  lemma StopSettledQuiet(s: State, t: Id, ok: bool)
    requires t in s.tasks && Stopping(s.tasks[t])
    ensures Quiet(s, SetTask(s, t, s.tasks[t].(stop := Stopped(ok))))
  {
    SetQuiet(s, t, s.tasks[t].(stop := Stopped(ok)));
  }

  lemma StopFinishedQuiet(s: State, t: Id)
    requires Enabled(s, StopFinished(t))
    ensures Quiet(s, DoStopFinished(s, t))
  {
    var outcome := if s.tasks[t].stop.ok then Released else StopFailed;
    EndQuiet(s, t);
    match s.tasks[t]
    case CleaningUp(bridge, _) => HandoverQuiet(s, EndTask(s, t), bridge, StopPending(t), outcome);
    case Deleting(sid, bridge, _) =>
      var v := EndTask(s, t).(sessions := s.sessions - {sid});
      SameQuiet(s, EndTask(s, t), v);
      HandoverQuiet(s, v, bridge, InMap(sid), outcome);
    case Closing(bridges, _) =>
      SetQuiet(s, t, Closing(bridges[1..], Unsent));
      HandoverQuiet(s, if bridges[1..] == [] then EndTask(s, t) else SetTask(s, t, Closing(bridges[1..], Unsent)),
                    bridges[0], StopPending(t), outcome);
  }

  // ---- the trace of a leak ----------------------------------------------------------------

  /** The POST req is on its way, or in the factory for b, and nobody waits for it. */
  ghost predicate Unawaited(s: State, b: Id, req: Id) {
    && !StillAwaited(s, req)
    && ((req in s.inbox && s.inbox[req].PostSession?)
        || (req in s.sidecar.starting && s.sidecar.starting[req].bridge == b))
  }

  ghost predicate Traced(s: State, b: Id, req: Id) {
    (b in s.fate && s.fate[b].Leaked? && MadeBy(s, b, req)) || Unawaited(s, b, req)
  }

  lemma QuietTraced(s: State, u: State, b: Id, req: Id)
    requires Quiet(s, u) && Traced(u, b, req)
    ensures Traced(s, b, req)
  {
  }

  lemma QuietMade(s: State, u: State)
    requires Made(s) && u.sidecar == s.sidecar && u.fate.Keys == s.fate.Keys
    ensures Made(u)
  {
    assert forall r, b :: MadeBy(u, b, r) == MadeBy(s, b, r);
    forall b | b in u.fate ensures exists r :: MadeBy(u, b, r) {
      var r :| MadeBy(s, b, r);
      assert MadeBy(u, b, r);
    }
  }

  lemma TokenLoadedTraced(s: State, t: Id, r: Id, token: Option<string>, b: Id, req: Id)
    requires KeysUsed(s) && Enabled(s, TokenLoaded(t, r, token))
    ensures var u := DoTokenLoaded(s, t, r, token);
            u.sidecar == s.sidecar && u.fate == s.fate && (Traced(u, b, req) ==> Traced(s, b, req))
  {
    EndQuiet(s, t);
    var u := DoTokenLoaded(s, t, r, token);
    if token.Some? && req != r && StillAwaited(s, req) {
      assert s.callers[req] != t;
      assert StillAwaited(u, req);
    }
  }

  /** From s to u nothing came or went at the sidecar, and only the fate of b may differ. */
  ghost predicate OnlyFate(s: State, u: State, b: Id) {
    && u.sidecar == s.sidecar && u.inbox == s.inbox && u.fate.Keys == s.fate.Keys
    && (forall x | x in s.fate && x != b :: u.fate[x] == s.fate[x])
  }

  lemma HandoverFate(s: State, u: State, bridge: Id, from: Fate, to: Fate)
    requires u.sidecar == s.sidecar && u.inbox == s.inbox && u.fate == s.fate
    ensures OnlyFate(s, Handover(u, bridge, from, to), bridge)
  {
  }

  lemma StartRepliedWaits(s: State, t: Id, req: Id)
    requires Enabled(s, StartReplied(t)) && StillAwaited(s, req) && req != s.tasks[t].req
    ensures StillAwaited(DoStartReplied(s, t), req)
  {
    assert s.callers[req] != t;
  }

  lemma StartRepliedStill(s: State, t: Id, b: Id)
    requires Enabled(s, StartReplied(t))
    ensures var u := DoStartReplied(s, t);
            && u.sidecar == s.sidecar && u.inbox == s.inbox && u.fate.Keys == s.fate.Keys
            && (b in s.fate && u.fate[b].Leaked? ==> s.fate[b].Leaked?)
  {
    var reply := s.sidecar.replies[s.tasks[t].req];
    if reply.Created? {
      HandoverFate(s, SetTask(s, t, HoldingReply(s.tasks[t].device, reply.bridge)),
                   reply.bridge, AwaitedBy(t), HeldBy(t));
    }
  }

  lemma StartRepliedTraced(s: State, t: Id, b: Id, req: Id)
    requires SidecarOk(s) && Enabled(s, StartReplied(t)) && Traced(DoStartReplied(s, t), b, req)
    ensures Traced(s, b, req)
  {
    AnsweredIsClosed(s, s.tasks[t].req);
    StartRepliedStill(s, t, b);
    if req != s.tasks[t].req && StillAwaited(s, req) {
      StartRepliedWaits(s, t, req);
    }
  }

  lemma AwaitingAbandoned(s: State, t: Id, b: Id)
    requires Enabled(s, Abandoned(t)) && s.tasks[t].AwaitingStart?
    ensures var u := DoAbandoned(s, t);
            && u.sidecar == s.sidecar && u.inbox == s.inbox && u.fate.Keys == s.fate.Keys
            && (b in s.fate && u.fate[b] != s.fate[b] ==> MadeBy(s, b, s.tasks[t].req))
  {
    var req := s.tasks[t].req;
    if req in s.sidecar.replies && s.sidecar.replies[req].Created? {
      HandoverFate(s, EndTask(s, t), s.sidecar.replies[req].bridge, AwaitedBy(t), Leaked);
    }
  }

  lemma StoppingAbandoned(s: State, t: Id)
    requires Enabled(s, Abandoned(t)) && (s.tasks[t].CleaningUp? || s.tasks[t].Deleting? || s.tasks[t].HoldingReply?)
    ensures OnlyFate(s, DoAbandoned(s, t), s.tasks[t].bridge)
  {
    var v := EndTask(s, t);
    match s.tasks[t]
    case CleaningUp(x, _) => HandoverFate(s, v, x, StopPending(t), Leaked);
    case HoldingReply(_, x) => HandoverFate(s, v, x, HeldBy(t), Leaked);
    case Deleting(sid, x, _) => HandoverFate(s, v.(sessions := s.sessions - {sid}), x, InMap(sid), Leaked);
  }

  lemma ClosingFates(s: State, t: Id, b: Id)
    requires Enabled(s, Abandoned(t)) && s.tasks[t].Closing?
    ensures var u := DoAbandoned(s, t);
            && u.sidecar == s.sidecar && u.inbox == s.inbox && u.fate.Keys == s.fate.Keys
            && (b in s.fate && u.fate[b] != s.fate[b] ==> s.fate[b] == StopPending(t))
  {
  }

  lemma AbandonedFates(s: State, t: Id, b: Id, req: Id)
    requires Enabled(s, Abandoned(t)) && (b in s.fate ==> FateOk(s, b))
    requires forall r | MadeBy(s, b, r) :: r == req
    ensures var u := DoAbandoned(s, t);
            && u.sidecar == s.sidecar && u.inbox == s.inbox && u.fate.Keys == s.fate.Keys
            && (b in s.fate && u.fate[b] != s.fate[b] ==> GivesUpOn(s, Abandoned(t), b, req))
  {
    match s.tasks[t]
    case AwaitingStart(_, _) => AwaitingAbandoned(s, t, b);
    case Closing(_, _) => ClosingFates(s, t, b);
    case LoadingToken(_) =>
    case AwaitingWhep(_, _) =>
    case _ => StoppingAbandoned(s, t);
  }

  lemma AbandonedWaits(s: State, t: Id, r: Id)
    requires Enabled(s, Abandoned(t)) && StillAwaited(s, r) && !StillAwaited(DoAbandoned(s, t), r)
    ensures s.tasks[t].AwaitingStart? && s.tasks[t].req == r
  {
  }

  lemma AbandonedStill(s: State, t: Id)
    requires Enabled(s, Abandoned(t))
    ensures var u := DoAbandoned(s, t); u.sidecar == s.sidecar && u.inbox == s.inbox && u.fate.Keys == s.fate.Keys
  {
    match s.tasks[t]
    case AwaitingStart(_, _) => AwaitingAbandoned(s, t, t);
    case Closing(_, _) => ClosingFates(s, t, t);
    case LoadingToken(_) =>
    case AwaitingWhep(_, _) =>
    case _ => StoppingAbandoned(s, t);
  }

  lemma AbandonedTraced(s: State, t: Id, b: Id, req: Id)
    requires Inv(s) && Made(s) && Enabled(s, Abandoned(t)) && Traced(DoAbandoned(s, t), b, req)
    ensures Traced(s, b, req) || GivesUpOn(s, Abandoned(t), b, req)
  {
    AbandonedStill(s, t);
    if Unawaited(DoAbandoned(s, t), b, req) {
      if StillAwaited(s, req) {
        AbandonedWaits(s, t, req);
      }
    } else {
      assert FateOk(s, b) && MadeBy(s, b, req);
      AbandonedFates(s, t, b, req);
    }
  }

  lemma SidecarReplies(s: State, e: SC.Event, b: Id, req: Id)
    requires SidecarOk(s) && Enabled(s, AtSidecar(e)) && MadeBy(DoAtSidecar(s, e), b, req)
    ensures MadeBy(s, b, req) || (e.FactoryStarts? && e.req == req && s.sidecar.starting[req].bridge == b)
  {
  }

  lemma SidecarStaysMade(s: State, e: SC.Event, b: Id, req: Id)
    requires SidecarOk(s) && Enabled(s, AtSidecar(e)) && MadeBy(s, b, req)
    ensures MadeBy(DoAtSidecar(s, e), b, req)
  {
    SidecarAnswered(s, e, req);
  }

  lemma SidecarFateKeys(s: State, e: SC.Event)
    requires Enabled(s, AtSidecar(e))
    ensures var u := DoAtSidecar(s, e);
            if e.FactoryStarts? then
              var x := s.sidecar.starting[e.req].bridge;
              u.fate.Keys == s.fate.Keys + {x} && MadeBy(u, x, e.req)
              && (forall b | b in s.fate && b != x :: u.fate[b] == s.fate[b])
              && (u.fate[x].Leaked? ==> !StillAwaited(s, e.req))
            else u.fate == s.fate
  {
  }

  lemma SidecarMade(s: State, e: SC.Event)
    requires SidecarOk(s) && Made(s) && Enabled(s, AtSidecar(e))
    ensures Made(DoAtSidecar(s, e))
  {
    var u := DoAtSidecar(s, e);
    SidecarFateKeys(s, e);
    forall r, b | MadeBy(u, b, r) ensures b in u.fate {
      SidecarReplies(s, e, b, r);
    }
    forall r, q, b | MadeBy(u, b, r) && MadeBy(u, b, q) ensures r == q {
      SidecarReplies(s, e, b, r);
      SidecarReplies(s, e, b, q);
    }
    forall b | b in u.fate ensures exists r :: MadeBy(u, b, r) {
      if b in s.fate {
        var r :| MadeBy(s, b, r);
        SidecarStaysMade(s, e, b, r);
      }
    }
  }

  lemma SidecarUnawaited(s: State, e: SC.Event, b: Id, req: Id)
    requires Enabled(s, AtSidecar(e)) && Unawaited(DoAtSidecar(s, e), b, req)
    ensures Unawaited(s, b, req)
  {
    var u := DoAtSidecar(s, e);
    assert StillAwaited(u, req) == StillAwaited(s, req);
  }

  lemma SidecarTraced(s: State, e: SC.Event, b: Id, req: Id)
    requires SidecarOk(s) && Made(s) && Enabled(s, AtSidecar(e)) && Traced(DoAtSidecar(s, e), b, req)
    ensures Traced(s, b, req)
  {
    var u := DoAtSidecar(s, e);
    if Unawaited(u, b, req) {
      SidecarUnawaited(s, e, b, req);
    } else {
      SidecarFateKeys(s, e);
      SidecarReplies(s, e, b, req);
      if MadeBy(s, b, req) {
        assert b in s.fate;
      }
    }
  }

  lemma NextMade(s: State, l: Label)
    requires Inv(s) && Made(s) && Enabled(s, l)
    ensures Made(Next(s, l))
  {
    match l
    case TokenLoaded(t, r, token) => TokenLoadedTraced(s, t, r, token, t, t); QuietMade(s, Next(s, l));
    case StartReplied(t) => StartRepliedStill(s, t, t); QuietMade(s, Next(s, l));
    case Abandoned(t) => AbandonedStill(s, t); QuietMade(s, Next(s, l));
    case AtSidecar(e) => SidecarMade(s, e);
    case _ => NextQuiet(s, l); QuietMade(s, Next(s, l));
  }

  lemma NextTraced(s: State, l: Label, b: Id, req: Id)
    requires Inv(s) && Made(s) && Enabled(s, l) && Traced(Next(s, l), b, req)
    ensures Traced(s, b, req) || GivesUpOn(s, l, b, req)
  {
    match l
    case TokenLoaded(t, r, token) => TokenLoadedTraced(s, t, r, token, b, req);
    case StartReplied(t) => StartRepliedTraced(s, t, b, req);
    case Abandoned(t) => AbandonedTraced(s, t, b, req);
    case AtSidecar(e) => SidecarTraced(s, e, b, req);
    case _ => NextQuiet(s, l); QuietTraced(s, Next(s, l), b, req);
  }

  lemma NextQuiet(s: State, l: Label)
    requires Inv(s) && Enabled(s, l) && !l.TokenLoaded? && !l.StartReplied? && !l.Abandoned? && !l.AtSidecar?
    ensures Quiet(s, Next(s, l))
  {
    match l
    case CreateBegins(t, device) => CreateQuiet(s, t, device);
    case Bind(t, sid) => BindQuiet(s, t, sid);
    case WhepAccepted(t, audio) => WhepQuiet(s, t, audio);
    case WhepFailed(t) => WhepQuiet(s, t, false);
    case DeleteBegins(t, sid) => DeleteQuiet(s, t, sid);
    case CloseBegins(t, order) => CloseQuiet(s, t, order);
    case StopSent(t, r) => StopSentQuiet(s, t, r);
    case StopReplied(t) => StopSettledQuiet(s, t, s.sidecar.replies[s.tasks[t].stop.req] == SC.NoContent);
    case StopErred(t) => StopSettledQuiet(s, t, false);
    case StopFinished(t) => StopFinishedQuiet(s, t);
  }

  lemma {:induction false} RunTraced(s: State, ls: seq<Label>, b: Id, req: Id)
    requires Inv(s) && Made(s) && Run(s, ls)
    ensures Made(Exec(s, ls))
    ensures Traced(Exec(s, ls), b, req) ==> Traced(s, b, req) || GivenUp(s, ls, b, req)
    decreases |ls|
  {
    if ls == [] {
    } else {
      NextKeepsInv(s, ls[0]);
      NextMade(s, ls[0]);
      RunTraced(Next(s, ls[0]), ls[1..], b, req);
      if Traced(Next(s, ls[0]), b, req) {
        NextTraced(s, ls[0], b, req);
      }
    }
  }

  // ---- the theorems -------------------------------------------------------------------------

  /** On every run: an entry recorded as leaked was made for a POST whose caller was
      abandoned before it read the reply, or was held or about to be stopped by a
      coroutine that was. */
  lemma LeaksWereGivenUp(max: int, ls: seq<Label>, b: Id) returns (req: Id)
    requires Run(Init(max), ls)
    requires b in Exec(Init(max), ls).fate && Exec(Init(max), ls).fate[b].Leaked?
    ensures MadeBy(Exec(Init(max), ls), b, req) && GivenUp(Init(max), ls, b, req)
  {
    var s := Exec(Init(max), ls);
    RunTraced(Init(max), ls, b, 0);
    req :| MadeBy(s, b, req);
    RunTraced(Init(max), ls, b, req);
  }

  /** On every run at all, each sidecar entry is accounted for, or a stop of it failed, or
      the coroutine that answered for it was abandoned. */
  lemma EveryEntryHasAFate(max: int, ls: seq<Label>, b: Id)
    requires Run(Init(max), ls) && b in Exec(Init(max), ls).sidecar.sessions
    ensures || Accounted(Exec(Init(max), ls), b)
            || Erred(Init(max), ls, b)
            || exists req :: MadeBy(Exec(Init(max), ls), b, req) && GivenUp(Init(max), ls, b, req)
  {
    RunKeepsInv(Init(max), ls);
    var s := Exec(Init(max), ls);
    FateAccounts(s, b);
    if s.fate[b].StopFailed? {
      FailedStopsErred(max, ls, b);
    } else if s.fate[b].Leaked? {
      var req := LeaksWereGivenUp(max, ls, b);
    }
  }
}
