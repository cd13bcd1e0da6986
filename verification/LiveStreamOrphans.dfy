/** What the ownership invariant means for runs: which entries of the sidecar can be left
    without anybody who answers for them, told by the labels of the run. */
module LiveStreamOrphans {
  import opened Common
  import SC = Sidecar
  import opened LiveStream
  import opened LiveStreamOwnership

  predicate Active(s: State, b: Id) {
    b in s.sidecar.sessions && s.sidecar.sessions[b].state == SC.Active
  }

  /** A create task has the start reply for b, read or still to be read. */
  predicate HasReply(s: State, t: Id, b: Id) {
    t in s.tasks &&
    match s.tasks[t]
    case AwaitingStart(_, req) => req in s.sidecar.replies && s.sidecar.replies[req] == SC.Created(b)
    case HoldingReply(_, bridge) => bridge == b
    case _ => false
  }

  /** A cleanup or shutdown task has not finished its stop of b. */
  predicate HasStop(s: State, t: Id, b: Id) {
    t in s.tasks &&
    match s.tasks[t]
    case CleaningUp(bridge, _) => bridge == b
    case Closing(bridges, _) => b in bridges
    case _ => false
  }

  ghost predicate Accounted(s: State, b: Id) {
    || (exists t :: HasReply(s, t, b))
    || (exists sid :: sid in s.sessions && s.sessions[sid].bridge == b)
    || (exists t :: HasStop(s, t, b))
  }

  lemma FateAccounts(s: State, b: Id)
    requires Inv(s) && b in s.sidecar.sessions
    ensures b in s.fate && (s.fate[b].StopFailed? || s.fate[b].Leaked? || Accounted(s, b))
  {
    assert FateOk(s, b);
    match s.fate[b]
    case AwaitedBy(t) => assert HasReply(s, t, b);
    case HeldBy(t) => assert HasReply(s, t, b);
    case InMap(sid) => assert s.sessions[sid].bridge == b;
    case StopPending(t) => assert HasStop(s, t, b);
    case _ =>
  }

  // ---- lost replies and cancellations -----------------------------------------

  /** A coroutine that may answer for an entry loses its start reply or is cancelled. */
  predicate GivesUp(s: State, l: Label) {
    l.Abandoned? && l.t in s.tasks && !s.tasks[l.t].LoadingToken? && !s.tasks[l.t].AwaitingWhep?
  }

  /** No start reply is lost and no coroutine is cancelled, but for those that load the
      token or await the WHEP answer. */
  ghost predicate NoneGivenUp(s: State, ls: seq<Label>)
    requires Run(s, ls)
    decreases |ls|
  {
    ls == [] || (!GivesUp(s, ls[0]) && NoneGivenUp(Next(s, ls[0]), ls[1..]))
  }

  /** Every POST still has its caller waiting, and no entry was given up. */
  ghost predicate NotLeaked(s: State) {
    && (forall b | b in s.fate :: !s.fate[b].Leaked?)
    && (forall r | r in s.sidecar.starting :: StillAwaited(s, r))
    && (forall r | r in s.inbox && s.inbox[r].PostSession? :: StillAwaited(s, r))
  }

  /** From s to u only task t moved on; it has no POST on its way. */
  ghost predicate MovesOn(s: State, u: State, t: Id) {
    && u.sidecar == s.sidecar && u.callers == s.callers
    && (forall r | r in u.inbox && u.inbox[r].PostSession? :: r in s.inbox && u.inbox[r] == s.inbox[r])
    && (t in s.tasks && s.tasks[t].AwaitingStart? ==>
          && s.tasks[t].req !in s.sidecar.starting
          && (s.tasks[t].req in s.inbox ==> !s.inbox[s.tasks[t].req].PostSession?))
    && (forall q | q in s.tasks && q != t :: q in u.tasks && u.tasks[q] == s.tasks[q])
    && (forall b | b in u.fate :: !u.fate[b].Leaked?)
  }

  lemma MovesOnKeeps(s: State, u: State, t: Id)
    requires NotLeaked(s) && MovesOn(s, u, t)
    ensures NotLeaked(u)
  {
    forall r | StillAwaited(s, r) && (r in s.sidecar.starting || (r in s.inbox && s.inbox[r].PostSession?))
      ensures StillAwaited(u, r)
    {
      assert s.callers[r] != t;
    }
  }

  lemma AnsweredIsClosed(s: State, req: Id)
    requires SidecarOk(s) && req in s.sidecar.replies
    ensures req !in s.sidecar.starting && req !in s.inbox
  {
  }

  lemma HandoverMovesOn(s: State, u: State, t: Id, bridge: Id, from: Fate, to: Fate)
    requires MovesOn(s, u, t) && !to.Leaked?
    ensures MovesOn(s, Handover(u, bridge, from, to), t)
  {
  }

  lemma TokenLoadedKept(s: State, t: Id, req: Id, token: Option<string>)
    requires KeysUsed(s) && NotLeaked(s) && Enabled(s, TokenLoaded(t, req, token))
    ensures NotLeaked(DoTokenLoaded(s, t, req, token))
  {
  }

  lemma StartRepliedKept(s: State, t: Id)
    requires SidecarOk(s) && NotLeaked(s) && Enabled(s, StartReplied(t))
    ensures NotLeaked(DoStartReplied(s, t))
  {
    var reply := s.sidecar.replies[s.tasks[t].req];
    AnsweredIsClosed(s, s.tasks[t].req);
    if reply.Created? {
      var u := SetTask(s, t, HoldingReply(s.tasks[t].device, reply.bridge));
      assert MovesOn(s, u, t);
      HandoverMovesOn(s, u, t, reply.bridge, AwaitedBy(t), HeldBy(t));
    } else {
      assert MovesOn(s, EndTask(s, t), t);
    }
    MovesOnKeeps(s, DoStartReplied(s, t), t);
  }

  lemma EndMovesOn(s: State, t: Id, gone: set<Id>)
    requires NotLeaked(s) && t in s.tasks && !s.tasks[t].AwaitingStart?
    ensures MovesOn(s, EndTask(s, t).(sessions := s.sessions - gone), t)
  {
  }

  lemma GoOnMovesOn(s: State, t: Id, rest: seq<Id>)
    requires NotLeaked(s) && t in s.tasks && s.tasks[t].Closing?
    ensures MovesOn(s, SetTask(s, t, Closing(rest, Unsent)), t)
  {
  }

  lemma StopFinishedMovesOn(s: State, t: Id)
    requires NotLeaked(s) && Enabled(s, StopFinished(t))
    ensures MovesOn(s, DoStopFinished(s, t), t)
  {
    var outcome := if s.tasks[t].stop.ok then Released else StopFailed;
    assert s.sessions - {} == s.sessions;
    match s.tasks[t]
    case CleaningUp(bridge, _) =>
      EndMovesOn(s, t, {});
      HandoverMovesOn(s, EndTask(s, t), t, bridge, StopPending(t), outcome);
    case Deleting(sid, bridge, _) =>
      EndMovesOn(s, t, {sid});
      HandoverMovesOn(s, EndTask(s, t).(sessions := s.sessions - {sid}), t, bridge, InMap(sid), outcome);
    case Closing(bridges, _) =>
      EndMovesOn(s, t, {});
      GoOnMovesOn(s, t, bridges[1..]);
      HandoverMovesOn(s, if bridges[1..] == [] then EndTask(s, t) else SetTask(s, t, Closing(bridges[1..], Unsent)), t,
                      bridges[0], StopPending(t), outcome);
  }

  lemma CreateBeginsMovesOn(s: State, t: Id, device: Device)
    requires KeysUsed(s) && NotLeaked(s) && Enabled(s, CreateBegins(t, device))
    ensures MovesOn(s, DoCreateBegins(s, t, device), t)
  {
  }

  lemma BindMovesOn(s: State, t: Id, sid: Id)
    requires NotLeaked(s) && Enabled(s, Bind(t, sid))
    ensures MovesOn(s, DoBind(s, t, sid), t)
  {
  }

  lemma WhepAcceptedMovesOn(s: State, t: Id, audio: bool)
    requires NotLeaked(s) && Enabled(s, WhepAccepted(t, audio))
    ensures MovesOn(s, DoWhepAccepted(s, t, audio), t)
  {
  }

  lemma WhepFailedMovesOn(s: State, t: Id)
    requires NotLeaked(s) && Enabled(s, WhepFailed(t))
    ensures MovesOn(s, DoWhepFailed(s, t), t)
  {
  }

  lemma DeleteBeginsMovesOn(s: State, t: Id, sid: Id)
    requires KeysUsed(s) && NotLeaked(s) && Enabled(s, DeleteBegins(t, sid))
    ensures MovesOn(s, DoDeleteBegins(s, t, sid), t)
  {
  }

  lemma CloseBeginsMovesOn(s: State, t: Id, order: seq<Id>)
    requires KeysUsed(s) && NotLeaked(s) && Enabled(s, CloseBegins(t, order))
    ensures MovesOn(s, DoCloseBegins(s, t, order), t)
  {
  }

  lemma StopSentMovesOn(s: State, t: Id, req: Id)
    requires KeysUsed(s) && NotLeaked(s) && Enabled(s, StopSent(t, req))
    ensures MovesOn(s, DoStopSent(s, t, req), t)
  {
  }

  lemma StopRepliedMovesOn(s: State, t: Id)
    requires NotLeaked(s) && Enabled(s, StopReplied(t))
    ensures MovesOn(s, DoStopReplied(s, t), t)
  {
  }

  lemma StopErredMovesOn(s: State, t: Id)
    requires NotLeaked(s) && Enabled(s, StopErred(t))
    ensures MovesOn(s, DoStopErred(s, t), t)
  {
  }

  lemma SidecarFatesKept(s: State, e: SC.Event)
    requires NotLeaked(s) && Enabled(s, AtSidecar(e))
    ensures var u := DoAtSidecar(s, e); forall b | b in u.fate :: !u.fate[b].Leaked?
  {
    assert e.FactoryStarts? ==> StillAwaited(s, e.req);
  }

  lemma SidecarPostsKept(s: State, e: SC.Event)
    requires SidecarOk(s) && Enabled(s, AtSidecar(e))
    ensures var u := DoAtSidecar(s, e);
            && (forall r | r in u.sidecar.starting ::
                  r in s.sidecar.starting || (r in s.inbox && s.inbox[r].PostSession?))
            && (forall r | r in u.inbox :: r in s.inbox && u.inbox[r] == s.inbox[r])
  {
  }

  lemma SidecarKept(s: State, e: SC.Event)
    requires SidecarOk(s) && NotLeaked(s) && Enabled(s, AtSidecar(e))
    ensures NotLeaked(DoAtSidecar(s, e))
  {
    var u := DoAtSidecar(s, e);
    SidecarFatesKept(s, e);
    SidecarPostsKept(s, e);
    assert u.tasks == s.tasks && u.callers == s.callers;
    assert forall r :: StillAwaited(u, r) == StillAwaited(s, r);
  }

  lemma NextNotLeaked(s: State, l: Label)
    requires Inv(s) && NotLeaked(s) && Enabled(s, l) && !GivesUp(s, l)
    ensures NotLeaked(Next(s, l))
  {
    match l
    case TokenLoaded(t, req, token) => TokenLoadedKept(s, t, req, token);
    case StartReplied(t) => StartRepliedKept(s, t);
    case AtSidecar(e) => SidecarKept(s, e);
    case Abandoned(t) => MovesOnKeeps(s, EndTask(s, t), t);
    case CreateBegins(t, device) => CreateBeginsMovesOn(s, t, device); MovesOnKeeps(s, Next(s, l), t);
    case Bind(t, sid) => BindMovesOn(s, t, sid); MovesOnKeeps(s, Next(s, l), t);
    case WhepAccepted(t, audio) => WhepAcceptedMovesOn(s, t, audio); MovesOnKeeps(s, Next(s, l), t);
    case WhepFailed(t) => WhepFailedMovesOn(s, t); MovesOnKeeps(s, Next(s, l), t);
    case DeleteBegins(t, sid) => DeleteBeginsMovesOn(s, t, sid); MovesOnKeeps(s, Next(s, l), t);
    case CloseBegins(t, order) => CloseBeginsMovesOn(s, t, order); MovesOnKeeps(s, Next(s, l), t);
    case StopSent(t, req) => StopSentMovesOn(s, t, req); MovesOnKeeps(s, Next(s, l), t);
    case StopReplied(t) => StopRepliedMovesOn(s, t); MovesOnKeeps(s, Next(s, l), t);
    case StopErred(t) => StopErredMovesOn(s, t); MovesOnKeeps(s, Next(s, l), t);
    case StopFinished(t) => StopFinishedMovesOn(s, t); MovesOnKeeps(s, Next(s, l), t);
  }

  lemma {:induction false} RunNotLeaked(s: State, ls: seq<Label>)
    requires Inv(s) && NotLeaked(s) && Run(s, ls) && NoneGivenUp(s, ls)
    ensures NotLeaked(Exec(s, ls))
    decreases |ls|
  {
    if ls == [] {
    } else {
      NextNotLeaked(s, ls[0]);
      NextKeepsInv(s, ls[0]);
      RunNotLeaked(Next(s, ls[0]), ls[1..]);
    }
  }

  // ---- failed stops ---------------------------------------------------------------

  /** A stop of b, not yet answered, ends with a timeout or a transport error. */
  predicate FailsStop(s: State, l: Label, b: Id) {
    l.StopErred? && Enabled(s, l) && Target(s.tasks[l.t]) == b
  }

  /** On this run a stop of b failed. */
  ghost predicate Erred(s: State, ls: seq<Label>, b: Id)
    requires Run(s, ls)
    decreases |ls|
  {
    ls != [] && (FailsStop(s, ls[0], b) || Erred(Next(s, ls[0]), ls[1..], b))
  }

  predicate HasFailedStop(s: State, t: Id, b: Id) {
    t in s.tasks && Stopping(s.tasks[t]) && s.tasks[t].stop == Stopped(false) && Target(s.tasks[t]) == b
  }

  ghost predicate MarkedFailed(s: State, b: Id) {
    (b in s.fate && s.fate[b].StopFailed?) || exists t :: HasFailedStop(s, t, b)
  }

  /** From s to u task t acted, and no stop failed: a fate only turns to StopFailed for
      the stop that t has seen fail. */
  ghost predicate NoneFails(s: State, u: State, t: Id) {
    && (forall b | b in u.fate && u.fate[b].StopFailed? ::
          (b in s.fate && s.fate[b].StopFailed?) || HasFailedStop(s, t, b))
    && (forall q | q in u.tasks && q != t :: q in s.tasks && u.tasks[q] == s.tasks[q])
    && (t in u.tasks && Stopping(u.tasks[t]) ==> u.tasks[t].stop != Stopped(false))
  }

  lemma NoneFailsMarks(s: State, u: State, t: Id, b: Id)
    requires NoneFails(s, u, t) && MarkedFailed(u, b)
    ensures MarkedFailed(s, b)
  {
    if q :| HasFailedStop(u, q, b) {
      assert HasFailedStop(s, q, b);
    }
  }

  lemma HandoverNoneFails(s: State, u: State, t: Id, bridge: Id, from: Fate, to: Fate)
    requires NoneFails(s, u, t) && (to.StopFailed? ==> HasFailedStop(s, t, bridge))
    ensures NoneFails(s, Handover(u, bridge, from, to), t)
  {
  }

  lemma SetNoneFails(s: State, t: Id, task: Task)
    requires Stopping(task) ==> task.stop != Stopped(false)
    ensures NoneFails(s, SetTask(s, t, task), t)
  {
  }

  lemma EndNoneFails(s: State, t: Id)
    ensures NoneFails(s, EndTask(s, t), t)
  {
  }

  /** Only tasks and fates matter. */
  lemma SameNoneFails(s: State, v: State, u: State, t: Id)
    requires NoneFails(s, v, t) && u.tasks == v.tasks && u.fate == v.fate
    ensures NoneFails(s, u, t)
  {
  }

  lemma CreateNoneFails(s: State, t: Id, device: Device)
    requires KeysUsed(s) && Enabled(s, CreateBegins(t, device))
    ensures NoneFails(s, DoCreateBegins(s, t, device), t)
  {
    SetNoneFails(s, t, LoadingToken(device));
  }

  lemma TokenLoadedNoneFails(s: State, t: Id, req: Id, token: Option<string>)
    requires Enabled(s, TokenLoaded(t, req, token))
    ensures NoneFails(s, DoTokenLoaded(s, t, req, token), t)
  {
    EndNoneFails(s, t);
    var v := SetTask(s, t, AwaitingStart(s.tasks[t].device, req));
    SetNoneFails(s, t, AwaitingStart(s.tasks[t].device, req));
    if token.Some? {
      SameNoneFails(s, v, DoTokenLoaded(s, t, req, token), t);
    }
  }

  lemma StartRepliedNoneFails(s: State, t: Id)
    requires Enabled(s, StartReplied(t))
    ensures NoneFails(s, DoStartReplied(s, t), t)
  {
    var reply := s.sidecar.replies[s.tasks[t].req];
    EndNoneFails(s, t);
    if reply.Created? {
      var task := HoldingReply(s.tasks[t].device, reply.bridge);
      SetNoneFails(s, t, task);
      HandoverNoneFails(s, SetTask(s, t, task), t, reply.bridge, AwaitedBy(t), HeldBy(t));
    }
  }

  lemma BindNoneFails(s: State, t: Id, sid: Id)
    requires Enabled(s, Bind(t, sid))
    ensures NoneFails(s, DoBind(s, t, sid), t)
  {
    var task := AwaitingWhep(sid, s.tasks[t].bridge);
    var v := SetTask(s, t, task);
    SetNoneFails(s, t, task);
    HandoverNoneFails(s, v, t, s.tasks[t].bridge, HeldBy(t), InMap(sid));
    SameNoneFails(s, Handover(v, s.tasks[t].bridge, HeldBy(t), InMap(sid)), DoBind(s, t, sid), t);
  }

  lemma WhepNoneFails(s: State, t: Id, audio: bool)
    requires Enabled(s, WhepAccepted(t, audio))
    ensures NoneFails(s, DoWhepAccepted(s, t, audio), t) && NoneFails(s, DoWhepFailed(s, t), t)
  {
    var task := s.tasks[t];
    EndNoneFails(s, t);
    SameNoneFails(s, EndTask(s, t), DoWhepAccepted(s, t, audio), t);
    var v := SetTask(s, t, CleaningUp(task.bridge, Unsent));
    SetNoneFails(s, t, CleaningUp(task.bridge, Unsent));
    HandoverNoneFails(s, v, t, task.bridge, InMap(task.sid), StopPending(t));
    SameNoneFails(s, Handover(v, task.bridge, InMap(task.sid), StopPending(t)), DoWhepFailed(s, t), t);
  }

  lemma CloseNoneFails(s: State, t: Id, order: seq<Id>)
    requires KeysUsed(s) && Enabled(s, CloseBegins(t, order))
    ensures NoneFails(s, DoCloseBegins(s, t, order), t)
  {
  }

  lemma DeleteNoneFails(s: State, t: Id, sid: Id)
    requires KeysUsed(s) && Enabled(s, DeleteBegins(t, sid))
    ensures NoneFails(s, DoDeleteBegins(s, t, sid), t)
  {
    if sid in s.sessions {
      SetNoneFails(s, t, Deleting(sid, s.sessions[sid].bridge, Unsent));
    }
  }

  lemma StopSentNoneFails(s: State, t: Id, req: Id)
    requires Enabled(s, StopSent(t, req))
    ensures NoneFails(s, DoStopSent(s, t, req), t)
  {
    var task := s.tasks[t].(stop := Sent(req));
    SetNoneFails(s, t, task);
    SameNoneFails(s, SetTask(s, t, task), DoStopSent(s, t, req), t);
  }

  /** A reply is never what makes a stop fail. */
  lemma StopRepliedNoneFails(s: State, t: Id)
    requires t in s.tasks && TaskOk(s, t) && Enabled(s, StopReplied(t))
    ensures NoneFails(s, DoStopReplied(s, t), t)
  {
    assert StopOk(s, Target(s.tasks[t]), s.tasks[t].stop);
    SetNoneFails(s, t, s.tasks[t].(stop := Stopped(true)));
  }

  lemma StopErredFails(s: State, t: Id, b: Id)
    requires Enabled(s, StopErred(t)) && MarkedFailed(DoStopErred(s, t), b) && !MarkedFailed(s, b)
    ensures Target(s.tasks[t]) == b
  {
    var u := DoStopErred(s, t);
    var q :| HasFailedStop(u, q, b);
    assert q != t ==> HasFailedStop(s, q, b);
  }

  lemma StopFinishedNoneFails(s: State, t: Id)
    requires Enabled(s, StopFinished(t))
    ensures NoneFails(s, DoStopFinished(s, t), t)
  {
    var outcome := if s.tasks[t].stop.ok then Released else StopFailed;
    EndNoneFails(s, t);
    assert outcome.StopFailed? ==> HasFailedStop(s, t, Target(s.tasks[t]));
    match s.tasks[t]
    case CleaningUp(bridge, _) => HandoverNoneFails(s, EndTask(s, t), t, bridge, StopPending(t), outcome);
    case Deleting(sid, bridge, _) =>
      var v := EndTask(s, t).(sessions := s.sessions - {sid});
      SameNoneFails(s, EndTask(s, t), v, t);
      HandoverNoneFails(s, v, t, bridge, InMap(sid), outcome);
    case Closing(bridges, _) =>
      SetNoneFails(s, t, Closing(bridges[1..], Unsent));
      var v := if bridges[1..] == [] then EndTask(s, t) else SetTask(s, t, Closing(bridges[1..], Unsent));
      HandoverNoneFails(s, v, t, bridges[0], StopPending(t), outcome);
  }

  lemma AbandonedNoneFails(s: State, t: Id)
    requires Enabled(s, Abandoned(t))
    ensures NoneFails(s, DoAbandoned(s, t), t)
  {
    EndNoneFails(s, t);
    match s.tasks[t]
    case AwaitingStart(_, req) =>
      if req in s.sidecar.replies && s.sidecar.replies[req].Created? {
        HandoverNoneFails(s, EndTask(s, t), t, s.sidecar.replies[req].bridge, AwaitedBy(t), Leaked);
      }
    case HoldingReply(_, bridge) => HandoverNoneFails(s, EndTask(s, t), t, bridge, HeldBy(t), Leaked);
    case CleaningUp(bridge, _) => HandoverNoneFails(s, EndTask(s, t), t, bridge, StopPending(t), Leaked);
    case Deleting(sid, bridge, _) =>
      var v := EndTask(s, t).(sessions := s.sessions - {sid});
      SameNoneFails(s, EndTask(s, t), v, t);
      HandoverNoneFails(s, v, t, bridge, InMap(sid), Leaked);
    case Closing(_, _) =>
    case _ =>
  }

  lemma SidecarMarksNothing(s: State, e: SC.Event, b: Id)
    requires Enabled(s, AtSidecar(e)) && MarkedFailed(DoAtSidecar(s, e), b)
    ensures MarkedFailed(s, b)
  {
    var u := DoAtSidecar(s, e);
    if q :| HasFailedStop(u, q, b) {
      assert HasFailedStop(s, q, b);
    }
  }

  lemma NextMarksFailed(s: State, l: Label, b: Id)
    requires Inv(s) && Enabled(s, l) && MarkedFailed(Next(s, l), b)
    ensures MarkedFailed(s, b) || FailsStop(s, l, b)
  {
    var u := Next(s, l);
    match l
    case CreateBegins(t, device) => CreateNoneFails(s, t, device); NoneFailsMarks(s, u, t, b);
    case TokenLoaded(t, req, token) => TokenLoadedNoneFails(s, t, req, token); NoneFailsMarks(s, u, t, b);
    case StartReplied(t) => StartRepliedNoneFails(s, t); NoneFailsMarks(s, u, t, b);
    case Bind(t, sid) => BindNoneFails(s, t, sid); NoneFailsMarks(s, u, t, b);
    case WhepAccepted(t, audio) => WhepNoneFails(s, t, audio); NoneFailsMarks(s, u, t, b);
    case WhepFailed(t) => WhepNoneFails(s, t, false); NoneFailsMarks(s, u, t, b);
    case DeleteBegins(t, sid) => DeleteNoneFails(s, t, sid); NoneFailsMarks(s, u, t, b);
    case CloseBegins(t, order) => CloseNoneFails(s, t, order); NoneFailsMarks(s, u, t, b);
    case StopSent(t, req) => StopSentNoneFails(s, t, req); NoneFailsMarks(s, u, t, b);
    case StopReplied(t) =>
      assert TaskOk(s, t);
      StopRepliedNoneFails(s, t);
      NoneFailsMarks(s, u, t, b);
    case StopErred(t) =>
      if !MarkedFailed(s, b) {
        StopErredFails(s, t, b);
      }
    case StopFinished(t) => StopFinishedNoneFails(s, t); NoneFailsMarks(s, u, t, b);
    case Abandoned(t) => AbandonedNoneFails(s, t); NoneFailsMarks(s, u, t, b);
    case AtSidecar(e) => SidecarMarksNothing(s, e, b);
  }

  lemma {:induction false} RunMarksFailed(s: State, ls: seq<Label>, b: Id)
    requires Inv(s) && Run(s, ls) && MarkedFailed(Exec(s, ls), b)
    ensures MarkedFailed(s, b) || Erred(s, ls, b)
    decreases |ls|
  {
    if ls == [] {
    } else {
      NextKeepsInv(s, ls[0]);
      RunMarksFailed(Next(s, ls[0]), ls[1..], b);
      if MarkedFailed(Next(s, ls[0]), b) {
        NextMarksFailed(s, ls[0], b);
      }
    }
  }

  /** What the history calls a failed stop is one: on every run. */
  lemma FailedStopsErred(max: int, ls: seq<Label>, b: Id)
    requires Run(Init(max), ls) && b in Exec(Init(max), ls).fate && Exec(Init(max), ls).fate[b].StopFailed?
    ensures Erred(Init(max), ls, b)
  {
    RunMarksFailed(Init(max), ls, b);
  }

  // ---- the theorems -----------------------------------------------------------------

  /** On every run on which no start reply is lost and no coroutine that may answer for
      an entry is cancelled: each sidecar entry is accounted for, or a stop of it failed
      on the run. */
  lemma NoOrphans(max: int, ls: seq<Label>, b: Id)
    requires Run(Init(max), ls) && NoneGivenUp(Init(max), ls)
    requires b in Exec(Init(max), ls).sidecar.sessions
    ensures Accounted(Exec(Init(max), ls), b) || Erred(Init(max), ls, b)
  {
    var s := Exec(Init(max), ls);
    RunKeepsInv(Init(max), ls);
    RunNotLeaked(Init(max), ls);
    FateAccounts(s, b);
    if s.fate[b].StopFailed? {
      FailedStopsErred(max, ls, b);
    }
  }

  lemma {:induction false} NothingErred(s: State, ls: seq<Label>, b: Id)
    requires Run(s, ls) && forall l | l in ls :: !l.StopErred?
    ensures !Erred(s, ls, b)
    decreases |ls|
  {
    if ls == [] {
    } else {
      assert !ls[0].StopErred?;
      NothingErred(Next(s, ls[0]), ls[1..], b);
    }
  }

  /** So once all coroutines are done and the map is empty, as after a shutdown, the
      sidecar holds only sessions whose stop failed; none, if no stop failed. */
  lemma ShutdownLeavesFailedStopsOnly(max: int, ls: seq<Label>)
    requires Run(Init(max), ls) && NoneGivenUp(Init(max), ls)
    requires var s := Exec(Init(max), ls); s.tasks == map[] && s.sessions == map[]
    ensures forall b | b in Exec(Init(max), ls).sidecar.sessions :: Erred(Init(max), ls, b)
    ensures (forall l | l in ls :: !l.StopErred?) ==> Exec(Init(max), ls).sidecar.sessions == map[]
  {
    var s := Exec(Init(max), ls);
    assert forall b :: !Accounted(s, b);
    forall b | b in s.sidecar.sessions ensures Erred(Init(max), ls, b) {
      NoOrphans(max, ls, b);
    }
    if forall l | l in ls :: !l.StopErred? {
      forall b ensures b !in s.sidecar.sessions {
        NothingErred(Init(max), ls, b);
      }
    }
  }

  /** Who has a reply for b has b recorded as awaited or held. */
  lemma ReplyFate(s: State, t: Id, b: Id)
    requires t in s.tasks && TaskOk(s, t) && HasReply(s, t, b)
    ensures b in s.fate && (s.fate[b] == AwaitedBy(t) || s.fate[b] == HeldBy(t))
  {
  }

  /** No two live sessions share a bridge id, and none shares it with a create coroutine
      that has its start reply, read or unread; nor do two such coroutines. */
  lemma BridgesDistinct(max: int, ls: seq<Label>)
    requires Run(Init(max), ls)
    ensures var s := Exec(Init(max), ls);
            && (forall p, q | p in s.sessions && q in s.sessions && p != q ::
                  s.sessions[p].bridge != s.sessions[q].bridge)
            && (forall p, t | p in s.sessions :: !HasReply(s, t, s.sessions[p].bridge))
            && (forall b, t, r | HasReply(s, t, b) && HasReply(s, r, b) :: t == r)
  {
    var s := Exec(Init(max), ls);
    RunKeepsInv(Init(max), ls);
    forall p | p in s.sessions ensures BoundOk(s, p) {
    }
    forall t, b | HasReply(s, t, b) ensures b in s.fate && (s.fate[b] == AwaitedBy(t) || s.fate[b] == HeldBy(t)) {
      assert TaskOk(s, t);
      ReplyFate(s, t, b);
    }
  }

  lemma StoppedIsGone(s: State, t: Id)
    requires t in s.tasks && TaskOk(s, t) && Stopping(s.tasks[t]) && s.tasks[t].stop == Stopped(true)
    ensures Target(s.tasks[t]) !in s.sidecar.sessions
  {
    assert StopOk(s, Target(s.tasks[t]), s.tasks[t].stop);
  }

  ghost predicate StopAnswered(s: State, t: Id) {
    t in s.tasks && Stopping(s.tasks[t]) && s.tasks[t].stop == Stopped(true)
  }

  /** A stop that was answered leaves no entry behind, whoever else was at work. */
  lemma AnsweredStopIsFinal(max: int, ls: seq<Label>, t: Id)
    requires Run(Init(max), ls) && StopAnswered(Exec(Init(max), ls), t)
    ensures var s := Exec(Init(max), ls); Target(s.tasks[t]) !in s.sidecar.sessions
  {
    RunKeepsInv(Init(max), ls);
    var s := Exec(Init(max), ls);
    assert TaskOk(s, t);
    StoppedIsGone(s, t);
  }

  // ---- a run on which the start reply is lost --------------------------------

  lemma Prepend(s: State, l: Label, u: State, ls: seq<Label>, end: State)
    requires Enabled(s, l) && Next(s, l) == u && Run(u, ls) && Exec(u, ls) == end
    ensures Run(s, [l] + ls) && Exec(s, [l] + ls) == end
  {
    assert ([l] + ls)[1..] == ls;
  }

  const AWAITING := State(1, map[], map[1 := AwaitingStart("cam", 2)], SC.EMPTY,
                          map[2 := PostSession("cam", "tok")], map[2 := 1], map[], {1, 2})

  const STARTING := AWAITING.(inbox := map[],
                              sidecar := SC.EMPTY.(starting := map[2 := SC.Start(7, "cam")], issued := {7}))

  const STARTED :=
    SC.Bridge(map[7 := SC.Entry("cam", SC.Active)], map[], map[], multiset{}, map[2 := SC.Created(7)], {7})

  const CREATED := Init(1).(tasks := map[1 := LoadingToken("cam")], used := {1})

  const LOST := State(1, map[], map[], STARTED, map[], map[2 := 1], map[7 := Leaked], {1, 2})

  lemma AwaitingFollows()
    ensures var create, load := CreateBegins(1, "cam"), TokenLoaded(1, 2, Some("tok"));
            && Enabled(Init(1), create) && Next(Init(1), create) == CREATED
            && Enabled(CREATED, load) && Next(CREATED, load) == AWAITING
  {
  }

  lemma StartingFollows()
    ensures var post := AtSidecar(SC.PostArrives(2, "cam", "tok", 7));
            Enabled(AWAITING, post) && Next(AWAITING, post) == STARTING
  {
    assert !SC.Busy(SC.EMPTY, "cam");
  }

  lemma LossFollows()
    ensures var start := AtSidecar(SC.FactoryStarts(2, SC.Active, false));
            && Enabled(STARTING, start)
            && Next(STARTING, start) == STARTING.(sidecar := STARTED, fate := map[7 := AwaitedBy(1)])
            && Enabled(Next(STARTING, start), Abandoned(1))
            && Next(Next(STARTING, start), Abandoned(1)) == LOST
  {
    assert StillAwaited(STARTING, 2);
  }

  lemma Chain5(s0: State, a: Label, s1: State, b: Label, s2: State, c: Label, s3: State, d: Label, s4: State, e: Label,
               s5: State) returns (ls: seq<Label>)
    requires Enabled(s0, a) && Next(s0, a) == s1 && Enabled(s1, b) && Next(s1, b) == s2
    requires Enabled(s2, c) && Next(s2, c) == s3 && Enabled(s3, d) && Next(s3, d) == s4
    requires Enabled(s4, e) && Next(s4, e) == s5
    ensures Run(s0, ls) && Exec(s0, ls) == s5 && ls == [a, b, c, d, e]
  {
    Prepend(s4, e, s5, [], s5);
    ls := [e] + [];
    Prepend(s3, d, s4, ls, s5);
    ls := [d] + ls;
    Prepend(s2, c, s3, ls, s5);
    ls := [c] + ls;
    Prepend(s1, b, s2, ls, s5);
    ls := [b] + ls;
    Prepend(s0, a, s1, ls, s5);
    ls := [a] + ls;
  }

  lemma LossRuns() returns (ls: seq<Label>)
    ensures Run(Init(1), ls) && Exec(Init(1), ls) == LOST && forall l | l in ls :: !l.StopErred?
  {
    var create, load := CreateBegins(1, "cam"), TokenLoaded(1, 2, Some("tok"));
    var post, start := AtSidecar(SC.PostArrives(2, "cam", "tok", 7)), AtSidecar(SC.FactoryStarts(2, SC.Active, false));
    AwaitingFollows();
    StartingFollows();
    LossFollows();
    ls := Chain5(Init(1), create, CREATED, load, AWAITING, post, STARTING,
                 start, Next(STARTING, start), Abandoned(1), LOST);
  }

  /** The hypothesis is needed: when the start reply is lost after the sidecar made
      the entry, the entry is active, nobody accounts for it and no stop of it failed. */
  lemma LostReplyOrphans()
    ensures exists ls: seq<Label> ::
              && Run(Init(1), ls) && Active(Exec(Init(1), ls), 7)
              && !Accounted(Exec(Init(1), ls), 7) && !Erred(Init(1), ls, 7)
  {
    var ls := LossRuns();
    NothingErred(Init(1), ls, 7);
    assert !Accounted(LOST, 7) && Active(LOST, 7);
  }
}
