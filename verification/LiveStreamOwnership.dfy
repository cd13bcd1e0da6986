/** No active sidecar entry is ever without somebody who answers for it. */
module LiveStreamOwnership {
  import opened Common
  import SC = Sidecar
  import opened LiveStream

  // ---- the invariant -------------------------------------------------------

  ghost predicate KeysUsed(s: State) {
    && s.tasks.Keys <= s.used && s.sessions.Keys <= s.used
    && s.inbox.Keys <= s.used && s.callers.Keys <= s.used
    && s.sidecar.starting.Keys <= s.used && s.sidecar.stopping.Keys <= s.used
    && s.sidecar.replies.Keys <= s.used
  }

  ghost predicate FateOk(s: State, b: Id)
    requires b in s.fate
  {
    match s.fate[b]
    case AwaitedBy(t) =>
      t in s.tasks && s.tasks[t].AwaitingStart?
      && s.tasks[t].req in s.sidecar.replies && s.sidecar.replies[s.tasks[t].req] == SC.Created(b)
    case HeldBy(t) => t in s.tasks && s.tasks[t].HoldingReply? && s.tasks[t].bridge == b
    case InMap(sid) => sid in s.sessions && s.sessions[sid].bridge == b
    case StopPending(t) =>
      t in s.tasks && ((s.tasks[t].CleaningUp? && s.tasks[t].bridge == b)
                       || (s.tasks[t].Closing? && b in s.tasks[t].bridges))
    case Released => b !in s.sidecar.sessions
    case StopFailed => true
    case Leaked => true
  }

  /** A stop request only ever concerns its own bridge id, and its reply means
      that the entry is gone. */
  ghost predicate StopOk(s: State, b: Id, stop: Stop) {
    match stop
    case Unsent => true
    case Stopped(ok) => ok ==> b !in s.sidecar.sessions
    case Sent(req) =>
      && req in s.used && req !in s.sidecar.starting
      && (req in s.inbox ==> s.inbox[req] == DeleteSession(b))
      && (req in s.sidecar.stopping ==> s.sidecar.stopping[req] == b)
      && (req in s.sidecar.replies ==> s.sidecar.replies[req] == SC.NoContent && b !in s.sidecar.sessions)
  }

  ghost predicate TaskOk(s: State, t: Id)
    requires t in s.tasks
  {
    match s.tasks[t]
    case LoadingToken(_) => true
    case AwaitingStart(_, req) =>
      && req in s.callers && s.callers[req] == t && req !in s.sidecar.stopping
      && (req in s.inbox ==> s.inbox[req].PostSession?)
      && (req in s.sidecar.replies && s.sidecar.replies[req].Created? ==>
            var b := s.sidecar.replies[req].bridge; b in s.fate && s.fate[b] == AwaitedBy(t))
    case HoldingReply(_, b) => b in s.fate && s.fate[b] == HeldBy(t)
    case AwaitingWhep(sid, b) =>
      b in s.fate && sid in s.used && (sid in s.sessions ==> s.sessions[sid].bridge == b)
    case CleaningUp(b, stop) => b in s.fate && StopOk(s, b, stop)
    case Deleting(sid, b, stop) =>
      b in s.fate && sid in s.used && (sid in s.sessions ==> s.sessions[sid].bridge == b) && StopOk(s, b, stop)
    case Closing(bs, stop) =>
      bs != [] && (forall b | b in bs :: b in s.fate) && StopOk(s, bs[0], stop)
  }

  ghost predicate SidecarOk(s: State) {
    && SC.Inv(s.sidecar)
    && s.fate.Keys <= s.sidecar.issued
    && s.sidecar.sessions.Keys <= s.fate.Keys
    && (forall r | r in s.sidecar.starting :: s.sidecar.starting[r].bridge !in s.fate)
    && (forall r | r in s.inbox :: SC.FreshRequest(s.sidecar, r))
  }

  ghost predicate FatesOk(s: State) {
    forall b {:trigger FateOk(s, b)} | b in s.fate :: FateOk(s, b)
  }

  ghost predicate TasksOk(s: State) {
    forall t {:trigger TaskOk(s, t)} | t in s.tasks :: TaskOk(s, t)
  }

  ghost predicate BoundOk(s: State, sid: Id)
    requires sid in s.sessions
  {
    s.sessions[sid].bridge in s.fate && s.fate[s.sessions[sid].bridge] == InMap(sid)
  }

  ghost predicate SessionsOk(s: State) {
    forall sid {:trigger BoundOk(s, sid)} | sid in s.sessions :: BoundOk(s, sid)
  }

  ghost predicate Inv(s: State) {
    KeysUsed(s) && SidecarOk(s) && FatesOk(s) && TasksOk(s) && SessionsOk(s)
  }

  // ---- what a label leaves alone ------------------------------------------

  /** From s to u only task t acted and the sidecar did nothing. */
  ghost predicate OnlyTask(s: State, u: State, t: Id) {
    && u.sidecar == s.sidecar && s.used <= u.used
    && u.fate.Keys == s.fate.Keys && u.tasks.Keys <= s.tasks.Keys + {t}
    && (forall q | q in u.tasks && q != t :: q in s.tasks && u.tasks[q] == s.tasks[q])
    && (forall q | q in s.tasks && q != t :: q in u.tasks)
    && (forall r | r in u.inbox && r in s.used :: r in s.inbox && u.inbox[r] == s.inbox[r])
    && (forall r | r in s.callers :: r in u.callers && u.callers[r] == s.callers[r])
    && (forall sid | sid in u.sessions && sid in s.used ::
          sid in s.sessions && u.sessions[sid].bridge == s.sessions[sid].bridge)
    && (forall b | b in s.fate :: u.fate[b] == s.fate[b] || Owned(s.fate[b], t) || s.fate[b].InMap?)
  }

  predicate Owned(f: Fate, t: Id) {
    f == AwaitedBy(t) || f == HeldBy(t) || f == StopPending(t)
  }

  lemma OtherTask(s: State, u: State, t: Id, q: Id)
    requires KeysUsed(s) && OnlyTask(s, u, t) && q != t && q in s.tasks && TaskOk(s, q)
    ensures q in u.tasks && TaskOk(u, q)
  {
    assert u.tasks[q] == s.tasks[q];
  }

  lemma OtherFate(s: State, u: State, t: Id, b: Id)
    requires OnlyTask(s, u, t) && b in s.fate && FateOk(s, b)
    requires u.fate[b] == s.fate[b] && !Owned(s.fate[b], t)
    requires s.fate[b].InMap? ==> s.fate[b].sid in u.sessions && s.fate[b].sid in s.used
    ensures FateOk(u, b)
  {
    match s.fate[b]
    case AwaitedBy(q) => assert u.tasks[q] == s.tasks[q];
    case HeldBy(q) => assert u.tasks[q] == s.tasks[q];
    case StopPending(q) => assert u.tasks[q] == s.tasks[q];
    case InMap(sid) => assert u.sessions[sid].bridge == s.sessions[sid].bridge;
    case _ =>
  }

  /** The fates that a label of task t may have to account for anew. */
  predicate Affected(s: State, u: State, t: Id, b: Id)
    requires b in s.fate && b in u.fate
  {
    u.fate[b] != s.fate[b] || Owned(s.fate[b], t) || (s.fate[b].InMap? && s.fate[b].sid !in u.sessions)
  }

  /** What remains to be shown for a label of task t. */
  lemma Assemble(s: State, u: State, t: Id)
    requires Inv(s) && OnlyTask(s, u, t) && KeysUsed(u)
    requires t in u.tasks ==> TaskOk(u, t)
    requires forall b {:trigger FateOk(u, b)} | b in s.fate && Affected(s, u, t, b) :: FateOk(u, b)
    requires SessionsOk(u)
    ensures Inv(u)
  {
    forall q | q in u.tasks ensures TaskOk(u, q) {
      if q != t {
        assert TaskOk(s, q);
        OtherTask(s, u, t, q);
      }
    }
    forall b | b in u.fate ensures FateOk(u, b) {
      assert FateOk(s, b);
      if !Affected(s, u, t, b) {
        OtherFate(s, u, t, b);
      }
    }
  }

  // ---- every label keeps the invariant --------------------------------------

  /** A call that is refused at once only uses up its task id. */
  lemma RefusedKeeps(s: State, t: Id)
    requires Inv(s) && t !in s.used
    ensures Inv(s.(used := s.used + {t}))
  {
    var u := s.(used := s.used + {t});
    forall b | b in s.fate ensures !Affected(s, u, t, b) {
      assert FateOk(s, b);
      if s.fate[b].InMap? { assert s.fate[b].sid in s.sessions; }
    }
    forall q | q in u.sessions ensures BoundOk(u, q) {
      assert BoundOk(s, q);
    }
    Assemble(s, u, t);
  }

  /** A new task that answers for nothing yet. */
  lemma AdmittedKeeps(s: State, t: Id, task: Task)
    requires Inv(s) && t !in s.used && TaskOk(SetTask(s, t, task), t)
    ensures Inv(SetTask(s, t, task))
  {
    var u := SetTask(s, t, task);
    forall b | b in s.fate ensures !Affected(s, u, t, b) {
      assert FateOk(s, b);
      if s.fate[b].InMap? { assert s.fate[b].sid in s.sessions; }
    }
    forall q | q in u.sessions ensures BoundOk(u, q) {
      assert BoundOk(s, q);
    }
    Assemble(s, u, t);
  }

  lemma CreateBeginsKeeps(s: State, t: Id, device: Device)
    requires Inv(s) && Enabled(s, CreateBegins(t, device))
    ensures Inv(DoCreateBegins(s, t, device))
  {
    if |s.sessions| >= s.max {
      RefusedKeeps(s, t);
    } else {
      AdmittedKeeps(s, t, LoadingToken(device));
    }
  }

  lemma TokenLoadedKeeps(s: State, t: Id, req: Id, token: Option<string>)
    requires Inv(s) && Enabled(s, TokenLoaded(t, req, token))
    ensures Inv(DoTokenLoaded(s, t, req, token))
  {
    var u := DoTokenLoaded(s, t, req, token);
    assert TaskOk(s, t);
    forall b | b in s.fate && Affected(s, u, t, b) ensures FateOk(u, b) {
      assert FateOk(s, b);
    }
    forall q | q in u.sessions ensures BoundOk(u, q) {
      assert BoundOk(s, q);
    }
    Assemble(s, u, t);
  }

  lemma StartRepliedOnly(s: State, t: Id)
    requires KeysUsed(s) && Enabled(s, StartReplied(t)) && TaskOk(s, t)
    ensures var u := DoStartReplied(s, t); OnlyTask(s, u, t) && KeysUsed(u) && (t in u.tasks ==> TaskOk(u, t))
  {
  }

  lemma StartRepliedFate(s: State, t: Id, b: Id)
    requires Enabled(s, StartReplied(t)) && b in s.fate && FateOk(s, b) && TaskOk(s, t)
    requires Affected(s, DoStartReplied(s, t), t, b) && (s.fate[b].InMap? ==> s.fate[b].sid in s.sessions)
    ensures FateOk(DoStartReplied(s, t), b)
  {
  }

  lemma StartRepliedKeeps(s: State, t: Id)
    requires Inv(s) && Enabled(s, StartReplied(t))
    ensures Inv(DoStartReplied(s, t))
  {
    var u := DoStartReplied(s, t);
    assert TaskOk(s, t);
    StartRepliedOnly(s, t);
    forall b | b in s.fate && Affected(s, u, t, b) ensures FateOk(u, b) {
      assert FateOk(s, b);
      StartRepliedFate(s, t, b);
    }
    forall q | q in u.sessions ensures BoundOk(u, q) {
      assert BoundOk(s, q);
    }
    Assemble(s, u, t);
  }

  lemma BindFate(s: State, t: Id, sid: Id, b: Id)
    requires Enabled(s, Bind(t, sid)) && b in s.fate && FateOk(s, b) && TaskOk(s, t)
    requires Affected(s, DoBind(s, t, sid), t, b)
    ensures FateOk(DoBind(s, t, sid), b)
  {
    assert b == s.tasks[t].bridge;
  }

  lemma BindBound(s: State, t: Id, sid: Id, q: Id)
    requires Enabled(s, Bind(t, sid)) && TaskOk(s, t) && q in DoBind(s, t, sid).sessions
    requires q != sid ==> BoundOk(s, q)
    ensures BoundOk(DoBind(s, t, sid), q)
  {
  }

  lemma BindOnly(s: State, t: Id, sid: Id)
    requires KeysUsed(s) && Enabled(s, Bind(t, sid)) && TaskOk(s, t)
    ensures var u := DoBind(s, t, sid); OnlyTask(s, u, t) && KeysUsed(u) && t in u.tasks && TaskOk(u, t)
  {
  }

  lemma BindKeeps(s: State, t: Id, sid: Id)
    requires Inv(s) && Enabled(s, Bind(t, sid))
    ensures Inv(DoBind(s, t, sid))
  {
    var u := DoBind(s, t, sid);
    assert TaskOk(s, t);
    BindOnly(s, t, sid);
    forall b | b in s.fate && Affected(s, u, t, b) ensures FateOk(u, b) {
      assert FateOk(s, b);
      BindFate(s, t, sid, b);
    }
    forall q | q in u.sessions ensures BoundOk(u, q) {
      assert q != sid ==> BoundOk(s, q);
      BindBound(s, t, sid, q);
    }
    Assemble(s, u, t);
  }

  lemma WhepAcceptedKeeps(s: State, t: Id, audio: bool)
    requires Inv(s) && Enabled(s, WhepAccepted(t, audio))
    ensures Inv(DoWhepAccepted(s, t, audio))
  {
    var u := DoWhepAccepted(s, t, audio);
    assert TaskOk(s, t);
    forall b | b in s.fate && Affected(s, u, t, b) ensures FateOk(u, b) {
      assert FateOk(s, b);
    }
    forall q | q in u.sessions ensures BoundOk(u, q) {
      assert BoundOk(s, q);
    }
    Assemble(s, u, t);
  }

  lemma WhepFailedFate(s: State, t: Id, b: Id)
    requires Enabled(s, WhepFailed(t)) && b in s.fate && FateOk(s, b) && TaskOk(s, t)
    requires Affected(s, DoWhepFailed(s, t), t, b)
    ensures FateOk(DoWhepFailed(s, t), b)
  {
    assert s.fate[b] == InMap(s.tasks[t].sid) && b == s.tasks[t].bridge;
  }

  lemma WhepFailedBound(s: State, t: Id, q: Id)
    requires Enabled(s, WhepFailed(t)) && q in s.sessions && BoundOk(s, q) && q != s.tasks[t].sid
    ensures BoundOk(DoWhepFailed(s, t), q)
  {
  }

  lemma WhepFailedOnly(s: State, t: Id)
    requires KeysUsed(s) && Enabled(s, WhepFailed(t)) && TaskOk(s, t)
    ensures var u := DoWhepFailed(s, t); OnlyTask(s, u, t) && KeysUsed(u) && t in u.tasks && TaskOk(u, t)
  {
  }

  lemma WhepFailedKeeps(s: State, t: Id)
    requires Inv(s) && Enabled(s, WhepFailed(t))
    ensures Inv(DoWhepFailed(s, t))
    ensures s.tasks[t].sid !in DoWhepFailed(s, t).sessions
  {
    var u := DoWhepFailed(s, t);
    assert TaskOk(s, t);
    WhepFailedOnly(s, t);
    forall b | b in s.fate && Affected(s, u, t, b) ensures FateOk(u, b) {
      assert FateOk(s, b);
      WhepFailedFate(s, t, b);
    }
    forall q | q in u.sessions ensures BoundOk(u, q) {
      assert BoundOk(s, q);
      WhepFailedBound(s, t, q);
    }
    Assemble(s, u, t);
  }

  lemma DeleteBeginsKeeps(s: State, t: Id, sid: Id)
    requires Inv(s) && Enabled(s, DeleteBegins(t, sid))
    ensures Inv(DoDeleteBegins(s, t, sid))
  {
    if sid !in s.sessions {
      RefusedKeeps(s, t);
    } else {
      assert BoundOk(s, sid);
      AdmittedKeeps(s, t, Deleting(sid, s.sessions[sid].bridge, Unsent));
    }
  }

  lemma CloseBeginsOnly(s: State, t: Id, order: seq<Id>)
    requires KeysUsed(s) && Enabled(s, CloseBegins(t, order))
    ensures OnlyTask(s, DoCloseBegins(s, t, order), t)
  {
    var u := DoCloseBegins(s, t, order);
    assert u.sessions == map[] && u.inbox == s.inbox && u.callers == s.callers;
  }

  lemma SameUsed(s: State, u: State, t: Id)
    requires KeysUsed(s) && u.used == s.used + {t} && u.tasks.Keys <= s.tasks.Keys + {t} && u.sessions == map[]
    requires u.inbox == s.inbox && u.callers == s.callers && u.sidecar == s.sidecar
    ensures KeysUsed(u)
  {
  }

  lemma CloseBeginsUsed(s: State, t: Id, order: seq<Id>)
    requires KeysUsed(s) && Enabled(s, CloseBegins(t, order))
    ensures KeysUsed(DoCloseBegins(s, t, order))
  {
    SameUsed(s, DoCloseBegins(s, t, order), t);
  }

  lemma CloseBeginsTask(s: State, t: Id, order: seq<Id>)
    requires KeysUsed(s) && SessionsOk(s) && Enabled(s, CloseBegins(t, order))
    ensures t in DoCloseBegins(s, t, order).tasks ==> TaskOk(DoCloseBegins(s, t, order), t)
  {
    forall i | 0 <= i < |order| ensures s.sessions[order[i]].bridge in s.fate {
      assert BoundOk(s, order[i]);
    }
  }

  lemma CloseBeginsFate(s: State, t: Id, order: seq<Id>, b: Id)
    requires Enabled(s, CloseBegins(t, order)) && b in s.fate && FateOk(s, b)
    requires s.fate[b].InMap?
    ensures FateOk(DoCloseBegins(s, t, order), b)
  {
    var u := DoCloseBegins(s, t, order);
    var i :| 0 <= i < |order| && order[i] == s.fate[b].sid;
    assert u.tasks[t].bridges[i] == b;
  }

  lemma CloseBeginsKeeps(s: State, t: Id, order: seq<Id>)
    requires Inv(s) && Enabled(s, CloseBegins(t, order))
    ensures Inv(DoCloseBegins(s, t, order)) && DoCloseBegins(s, t, order).sessions == map[]
  {
    var u := DoCloseBegins(s, t, order);
    CloseBeginsOnly(s, t, order);
    CloseBeginsUsed(s, t, order);
    CloseBeginsTask(s, t, order);
    forall b | b in s.fate && Affected(s, u, t, b) ensures FateOk(u, b) {
      assert FateOk(s, b);
      CloseBeginsFate(s, t, order, b);
    }
    Assemble(s, u, t);
  }

  lemma StopSentKeeps(s: State, t: Id, req: Id)
    requires Inv(s) && Enabled(s, StopSent(t, req))
    ensures Inv(DoStopSent(s, t, req))
  {
    var u := DoStopSent(s, t, req);
    assert TaskOk(s, t);
    forall b | b in s.fate && Affected(s, u, t, b) ensures FateOk(u, b) {
      assert FateOk(s, b);
    }
    forall q | q in u.sessions ensures BoundOk(u, q) {
      assert BoundOk(s, q);
    }
    Assemble(s, u, t);
  }

  lemma StopRepliedKeeps(s: State, t: Id)
    requires Inv(s) && Enabled(s, StopReplied(t))
    ensures Inv(DoStopReplied(s, t))
  {
    var u := DoStopReplied(s, t);
    assert TaskOk(s, t);
    forall b | b in s.fate && Affected(s, u, t, b) ensures FateOk(u, b) {
      assert FateOk(s, b);
    }
    forall q | q in u.sessions ensures BoundOk(u, q) {
      assert BoundOk(s, q);
    }
    Assemble(s, u, t);
  }

  lemma StopErredKeeps(s: State, t: Id)
    requires Inv(s) && Enabled(s, StopErred(t))
    ensures Inv(DoStopErred(s, t))
  {
    var u := DoStopErred(s, t);
    assert TaskOk(s, t);
    forall b | b in s.fate && Affected(s, u, t, b) ensures FateOk(u, b) {
      assert FateOk(s, b);
    }
    forall q | q in u.sessions ensures BoundOk(u, q) {
      assert BoundOk(s, q);
    }
    Assemble(s, u, t);
  }

  /** A task that ends without touching a session or a fate. */
  lemma QuietEnd(s: State, t: Id)
    requires Inv(s) && t in s.tasks && forall b | b in s.fate :: !Owned(s.fate[b], t)
    ensures Inv(EndTask(s, t))
  {
    var u := EndTask(s, t);
    forall b | b in s.fate ensures !Affected(s, u, t, b) {
      assert FateOk(s, b);
    }
    forall q | q in u.sessions ensures BoundOk(u, q) {
      assert BoundOk(s, q);
    }
    Assemble(s, u, t);
  }

  predicate Settles(s: State, bridge: Id, to: Fate) {
    to.StopFailed? || to.Leaked? || (to.Released? && bridge !in s.sidecar.sessions)
  }

  /** A task that ends while it answers for one bridge id. */
  lemma OwnerEnds(s: State, t: Id, bridge: Id, to: Fate)
    requires Inv(s) && t in s.tasks && bridge in s.fate && Owned(s.fate[bridge], t)
    requires forall b | b in s.fate && Owned(s.fate[b], t) :: b == bridge
    requires Settles(s, bridge, to)
    ensures Inv(SetFate(EndTask(s, t), bridge, to))
  {
    var u := SetFate(EndTask(s, t), bridge, to);
    forall b | b in s.fate && Affected(s, u, t, b) ensures FateOk(u, b) {
      assert FateOk(s, b);
    }
    forall q | q in u.sessions ensures BoundOk(u, q) {
      assert BoundOk(s, q);
    }
    Assemble(s, u, t);
  }

  lemma CleaningUpEnds(s: State, t: Id, to: Fate)
    requires Inv(s) && t in s.tasks && s.tasks[t].CleaningUp? && Settles(s, s.tasks[t].bridge, to)
    ensures Inv(Handover(EndTask(s, t), s.tasks[t].bridge, StopPending(t), to))
  {
    var bridge := s.tasks[t].bridge;
    assert TaskOk(s, t);
    forall b | b in s.fate && Owned(s.fate[b], t) ensures b == bridge && s.fate[b] == StopPending(t) {
      assert FateOk(s, b);
    }
    if s.fate[bridge] == StopPending(t) {
      OwnerEnds(s, t, bridge, to);
    } else {
      QuietEnd(s, t);
    }
  }

  function Unbind(s: State, t: Id, sid: Id, bridge: Id, to: Fate): State {
    Handover(EndTask(s, t).(sessions := s.sessions - {sid}), bridge, InMap(sid), to)
  }

  lemma DeletingEnds(s: State, t: Id, to: Fate)
    requires Inv(s) && t in s.tasks && s.tasks[t].Deleting? && Settles(s, s.tasks[t].bridge, to)
    ensures Inv(Unbind(s, t, s.tasks[t].sid, s.tasks[t].bridge, to))
  {
    var sid, bridge := s.tasks[t].sid, s.tasks[t].bridge;
    var u := Unbind(s, t, sid, bridge, to);
    assert TaskOk(s, t);
    forall b | b in s.fate ensures !Owned(s.fate[b], t) {
      assert FateOk(s, b);
    }
    if sid in s.sessions {
      assert BoundOk(s, sid);
      forall b | b in s.fate && Affected(s, u, t, b) ensures FateOk(u, b) {
        assert FateOk(s, b);
      }
      forall q | q in u.sessions ensures BoundOk(u, q) {
        assert BoundOk(s, q);
      }
      Assemble(s, u, t);
    } else {
      assert FateOk(s, bridge);
      assert s.sessions - {sid} == s.sessions;
      QuietEnd(s, t);
    }
  }

  lemma ClosingFinished(s: State, t: Id)
    requires Inv(s) && Enabled(s, StopFinished(t)) && s.tasks[t].Closing?
    ensures Inv(DoStopFinished(s, t))
  {
    var bridges := s.tasks[t].bridges;
    var to := if s.tasks[t].stop.ok then Released else StopFailed;
    assert TaskOk(s, t);
    assert bridges == [bridges[0]] + bridges[1..];
    forall b | b in s.fate && Owned(s.fate[b], t) ensures s.fate[b] == StopPending(t) && b in bridges {
      assert FateOk(s, b);
    }
    if bridges[1..] != [] {
      var f := s.fate[bridges[0]];
      assert s.fate[bridges[0] := f] == s.fate;
      GoOnKeeps(s, t, if f == StopPending(t) then to else f);
    } else if s.fate[bridges[0]] == StopPending(t) {
      OwnerEnds(s, t, bridges[0], to);
    } else {
      QuietEnd(s, t);
    }
  }

  /** Shutdown goes on with its next session; f is the fate of the one just stopped. */
  function GoOn(s: State, t: Id, f: Fate): State
    requires t in s.tasks && s.tasks[t].Closing? && s.tasks[t].bridges != []
  {
    SetFate(SetTask(s, t, Closing(s.tasks[t].bridges[1..], Unsent)), s.tasks[t].bridges[0], f)
  }

  lemma GoOnFate(s: State, t: Id, f: Fate, b: Id)
    requires t in s.tasks && s.tasks[t].Closing? && s.tasks[t].bridges != []
    requires b in s.fate && FateOk(s, b) && b != s.tasks[t].bridges[0] && Owned(s.fate[b], t)
    ensures FateOk(GoOn(s, t, f), b)
  {
    var bridges := s.tasks[t].bridges;
    assert bridges == [bridges[0]] + bridges[1..];
  }

  lemma GoOnKeeps(s: State, t: Id, f: Fate)
    requires Inv(s) && t in s.tasks && s.tasks[t].Closing? && |s.tasks[t].bridges| > 1
    requires s.tasks[t].bridges[0] in s.fate
    requires if Owned(s.fate[s.tasks[t].bridges[0]], t) then Settles(s, s.tasks[t].bridges[0], f)
             else f == s.fate[s.tasks[t].bridges[0]]
    ensures Inv(GoOn(s, t, f))
  {
    var u := GoOn(s, t, f);
    var first := s.tasks[t].bridges[0];
    assert TaskOk(s, t) && FateOk(s, first);
    assert OnlyTask(s, u, t);
    forall b | b in s.fate && Affected(s, u, t, b) ensures FateOk(u, b) {
      assert FateOk(s, b);
      if b != first && Owned(s.fate[b], t) { GoOnFate(s, t, f, b); }
    }
    forall sid | sid in u.sessions ensures BoundOk(u, sid) {
      assert BoundOk(s, sid);
    }
    Assemble(s, u, t);
  }

  lemma StopFinishedKeeps(s: State, t: Id)
    requires Inv(s) && Enabled(s, StopFinished(t))
    ensures Inv(DoStopFinished(s, t))
    ensures s.tasks[t].Deleting? ==> s.tasks[t].sid !in DoStopFinished(s, t).sessions
  {
    assert TaskOk(s, t);
    var outcome := if s.tasks[t].stop.ok then Released else StopFailed;
    match s.tasks[t]
    case CleaningUp(_, _) => CleaningUpEnds(s, t, outcome);
    case Deleting(_, _, _) => DeletingEnds(s, t, outcome);
    case Closing(_, _) => ClosingFinished(s, t);
  }

  lemma ClosingAbandoned(s: State, t: Id)
    requires Inv(s) && t in s.tasks && s.tasks[t].Closing?
    ensures Inv(DoAbandoned(s, t))
  {
    var u := DoAbandoned(s, t);
    forall b | b in s.fate && Affected(s, u, t, b) ensures FateOk(u, b) {
      assert FateOk(s, b);
    }
    forall q | q in u.sessions ensures BoundOk(u, q) {
      assert BoundOk(s, q);
    }
    Assemble(s, u, t);
  }

  lemma AbandonedKeeps(s: State, t: Id)
    requires Inv(s) && Enabled(s, Abandoned(t))
    ensures Inv(DoAbandoned(s, t))
    ensures s.tasks[t].Deleting? ==> s.tasks[t].sid !in DoAbandoned(s, t).sessions
  {
    assert TaskOk(s, t);
    forall b | b in s.fate && Owned(s.fate[b], t)
      ensures !s.tasks[t].LoadingToken? && !s.tasks[t].AwaitingWhep? && !s.tasks[t].Deleting?
      ensures s.tasks[t].HoldingReply? ==> b == s.tasks[t].bridge
      ensures s.tasks[t].AwaitingStart? ==>
                s.tasks[t].req in s.sidecar.replies && s.sidecar.replies[s.tasks[t].req] == SC.Created(b)
    {
      assert FateOk(s, b);
    }
    match s.tasks[t]
    case AwaitingStart(_, req) =>
      if req in s.sidecar.replies && s.sidecar.replies[req].Created? {
        OwnerEnds(s, t, s.sidecar.replies[req].bridge, Leaked);
      } else {
        QuietEnd(s, t);
      }
    case HoldingReply(_, bridge) => OwnerEnds(s, t, bridge, Leaked);
    case CleaningUp(_, _) => CleaningUpEnds(s, t, Leaked);
    case Deleting(_, _, _) => DeletingEnds(s, t, Leaked);
    case Closing(_, _) => ClosingAbandoned(s, t);
    case _ => QuietEnd(s, t);
  }

  lemma SidecarGone(s: State, e: SC.Event, b: Id)
    requires SidecarOk(s) && Enabled(s, AtSidecar(e)) && b in s.fate && b !in s.sidecar.sessions
    ensures b !in DoAtSidecar(s, e).sidecar.sessions
  {
  }

  lemma SidecarOwnDelete(s: State, e: SC.Event, b: Id, req: Id)
    requires SidecarOk(s) && Enabled(s, AtSidecar(e)) && b in s.fate && StopOk(s, b, Sent(req))
    requires (e.DeleteArrives? || e.StopReturns?) && e.req == req
    ensures StopOk(DoAtSidecar(s, e), b, Sent(req))
  {
    assert SC.FreshRequest(s.sidecar, req) || req in s.sidecar.stopping;
  }

  /** Every stage of the request is as before, or it is no longer there. */
  ghost predicate Unmoved(s: State, u: State, req: Id) {
    && req !in u.sidecar.starting
    && (req in u.inbox ==> req in s.inbox && u.inbox[req] == s.inbox[req])
    && (req in u.sidecar.stopping ==>
          req in s.sidecar.stopping && u.sidecar.stopping[req] == s.sidecar.stopping[req])
    && (req in u.sidecar.replies ==>
          req in s.sidecar.replies && u.sidecar.replies[req] == s.sidecar.replies[req])
  }

  lemma FactoryUnmoved(s: State, e: SC.Event, req: Id)
    requires Enabled(s, AtSidecar(e)) && req !in s.sidecar.starting && (e.FactoryStarts? || e.FactoryFails?)
    ensures Unmoved(s, DoAtSidecar(s, e), req)
  {
    assert e.req != req;
  }

  lemma OtherUnmoved(s: State, e: SC.Event, req: Id)
    requires Enabled(s, AtSidecar(e)) && req !in s.sidecar.starting
    requires e.PostArrives? || e.DeleteArrives? || e.StopReturns? ==> e.req != req
    requires !e.FactoryStarts? && !e.FactoryFails?
    ensures Unmoved(s, DoAtSidecar(s, e), req)
  {
  }

  /** An event of another request leaves a stop request where it is. */
  lemma RequestUnmoved(s: State, e: SC.Event, req: Id)
    requires Enabled(s, AtSidecar(e)) && req !in s.sidecar.starting && (req in s.inbox ==> s.inbox[req].DeleteSession?)
    requires (e.DeleteArrives? || e.StopReturns?) ==> e.req != req
    ensures Unmoved(s, DoAtSidecar(s, e), req)
  {
    if e.FactoryStarts? || e.FactoryFails? {
      FactoryUnmoved(s, e, req);
    } else {
      OtherUnmoved(s, e, req);
    }
  }

  lemma SidecarOtherRequest(s: State, e: SC.Event, b: Id, req: Id)
    requires SidecarOk(s) && Enabled(s, AtSidecar(e)) && b in s.fate && StopOk(s, b, Sent(req))
    requires (e.DeleteArrives? || e.StopReturns?) ==> e.req != req
    ensures StopOk(DoAtSidecar(s, e), b, Sent(req))
  {
    RequestUnmoved(s, e, req);
    if b !in s.sidecar.sessions {
      SidecarGone(s, e, b);
    }
  }

  lemma SidecarSent(s: State, e: SC.Event, b: Id, req: Id)
    requires SidecarOk(s) && Enabled(s, AtSidecar(e)) && b in s.fate && StopOk(s, b, Sent(req))
    ensures StopOk(DoAtSidecar(s, e), b, Sent(req))
  {
    if (e.DeleteArrives? || e.StopReturns?) && e.req == req {
      SidecarOwnDelete(s, e, b, req);
    } else {
      SidecarOtherRequest(s, e, b, req);
    }
  }

  lemma SidecarStop(s: State, e: SC.Event, b: Id, stop: Stop)
    requires SidecarOk(s) && Enabled(s, AtSidecar(e)) && b in s.fate && StopOk(s, b, stop)
    ensures StopOk(DoAtSidecar(s, e), b, stop)
  {
    match stop
    case Unsent =>
    case Sent(req) => SidecarSent(s, e, b, req);
    case Stopped(ok) => if ok { SidecarGone(s, e, b); }
  }

  lemma SidecarAwait(s: State, e: SC.Event, t: Id)
    requires SidecarOk(s) && Enabled(s, AtSidecar(e)) && t in s.tasks && s.tasks[t].AwaitingStart? && TaskOk(s, t)
    ensures TaskOk(DoAtSidecar(s, e), t)
  {
  }

  lemma SidecarTask(s: State, e: SC.Event, t: Id)
    requires SidecarOk(s) && Enabled(s, AtSidecar(e)) && t in s.tasks && TaskOk(s, t)
    ensures TaskOk(DoAtSidecar(s, e), t)
  {
    match s.tasks[t]
    case AwaitingStart(_, _) => SidecarAwait(s, e, t);
    case CleaningUp(b, stop) => SidecarStop(s, e, b, stop);
    case Deleting(_, b, stop) => SidecarStop(s, e, b, stop);
    case Closing(bs, stop) => SidecarStop(s, e, bs[0], stop);
    case _ =>
  }

  lemma SidecarFateKept(s: State, e: SC.Event, b: Id)
    requires SidecarOk(s) && Enabled(s, AtSidecar(e)) && b in s.fate
    ensures var u := DoAtSidecar(s, e);
            b in u.fate && u.fate[b] == s.fate[b] && u.tasks == s.tasks && u.sessions == s.sessions
  {
  }

  /** What has been answered stays answered. */
  lemma SidecarAnswered(s: State, e: SC.Event, req: Id)
    requires SidecarOk(s) && Enabled(s, AtSidecar(e)) && req in s.sidecar.replies
    ensures var u := DoAtSidecar(s, e);
            req in u.sidecar.replies && u.sidecar.replies[req] == s.sidecar.replies[req]
  {
    assert req !in s.sidecar.starting && req !in s.sidecar.stopping;
  }

  lemma SidecarFate(s: State, e: SC.Event, b: Id)
    requires SidecarOk(s) && Enabled(s, AtSidecar(e)) && b in s.fate && FateOk(s, b)
    ensures FateOk(DoAtSidecar(s, e), b)
  {
    SidecarFateKept(s, e, b);
    match s.fate[b]
    case AwaitedBy(t) => SidecarAnswered(s, e, s.tasks[t].req);
    case Released => SidecarGone(s, e, b);
    case _ =>
  }

  lemma SidecarInbox(s: State, e: SC.Event)
    requires SidecarOk(s) && Enabled(s, AtSidecar(e))
    ensures var u := DoAtSidecar(s, e); forall r | r in u.inbox :: SC.FreshRequest(u.sidecar, r)
  {
    var u := DoAtSidecar(s, e);
    forall r | r in u.inbox ensures SC.FreshRequest(u.sidecar, r) {
      assert SC.FreshRequest(s.sidecar, r);
    }
  }

  lemma SidecarStarting(s: State, e: SC.Event)
    requires SC.Inv(s.sidecar) && Enabled(s, AtSidecar(e)) && s.fate.Keys <= s.sidecar.issued
    requires forall r | r in s.sidecar.starting :: s.sidecar.starting[r].bridge !in s.fate
    ensures var u := DoAtSidecar(s, e); forall r | r in u.sidecar.starting :: u.sidecar.starting[r].bridge !in u.fate
  {
  }

  lemma SidecarIds(s: State, e: SC.Event)
    requires SC.Inv(s.sidecar) && Enabled(s, AtSidecar(e))
    requires s.fate.Keys <= s.sidecar.issued && s.sidecar.sessions.Keys <= s.fate.Keys
    ensures var u := DoAtSidecar(s, e);
            u.fate.Keys <= u.sidecar.issued && u.sidecar.sessions.Keys <= u.fate.Keys
  {
  }

  lemma SidecarUsed(s: State, e: SC.Event)
    requires KeysUsed(s) && Enabled(s, AtSidecar(e))
    ensures KeysUsed(DoAtSidecar(s, e))
  {
  }

  lemma SidecarKeys(s: State, e: SC.Event)
    requires KeysUsed(s) && SidecarOk(s) && Enabled(s, AtSidecar(e))
    ensures KeysUsed(DoAtSidecar(s, e)) && SidecarOk(DoAtSidecar(s, e))
  {
    SC.StepKeepsInv(s.sidecar, e);
    SidecarUsed(s, e);
    SidecarInbox(s, e);
    SidecarStarting(s, e);
    SidecarIds(s, e);
  }

  lemma SidecarKeeps(s: State, e: SC.Event)
    requires Inv(s) && Enabled(s, AtSidecar(e))
    ensures Inv(DoAtSidecar(s, e))
  {
    var u := DoAtSidecar(s, e);
    SidecarKeys(s, e);
    forall q | q in u.tasks ensures TaskOk(u, q) {
      assert TaskOk(s, q);
      SidecarTask(s, e, q);
    }
    forall b | b in u.fate ensures FateOk(u, b) {
      if b in s.fate {
        assert FateOk(s, b);
        SidecarFate(s, e, b);
      }
    }
    forall q | q in u.sessions ensures BoundOk(u, q) {
      assert BoundOk(s, q);
    }
  }

  lemma NextKeepsInv(s: State, l: Label)
    requires Inv(s) && Enabled(s, l)
    ensures Inv(Next(s, l))
  {
    match l
    case CreateBegins(t, device) => CreateBeginsKeeps(s, t, device);
    case TokenLoaded(t, req, token) => TokenLoadedKeeps(s, t, req, token);
    case StartReplied(t) => StartRepliedKeeps(s, t);
    case Bind(t, sid) => BindKeeps(s, t, sid);
    case WhepAccepted(t, audio) => WhepAcceptedKeeps(s, t, audio);
    case WhepFailed(t) => WhepFailedKeeps(s, t);
    case DeleteBegins(t, sid) => DeleteBeginsKeeps(s, t, sid);
    case CloseBegins(t, order) => CloseBeginsKeeps(s, t, order);
    case StopSent(t, req) => StopSentKeeps(s, t, req);
    case StopReplied(t) => StopRepliedKeeps(s, t);
    case StopErred(t) => StopErredKeeps(s, t);
    case StopFinished(t) => StopFinishedKeeps(s, t);
    case Abandoned(t) => AbandonedKeeps(s, t);
    case AtSidecar(e) => SidecarKeeps(s, e);
  }

  lemma {:induction false} RunKeepsInv(s: State, ls: seq<Label>)
    requires Inv(s) && Run(s, ls)
    ensures Inv(Exec(s, ls))
    decreases |ls|
  {
    if ls == [] {
    } else {
      NextKeepsInv(s, ls[0]);
      RunKeepsInv(Next(s, ls[0]), ls[1..]);
    }
  }
}
