/** What the sessions of the map are: made by one create call, for its device, with the
    entry that the sidecar made for that device, and with the audio flag of the answer. */
module LiveStreamSessions {
  import opened Common
  import SC = Sidecar
  import opened LiveStream
  import opened LiveStreamOwnership

  /** The entry, if it is there, is one for the device. */
  predicate EntryFor(s: State, b: Id, device: Device) {
    b in s.sidecar.sessions ==> s.sidecar.sessions[b].device == device
  }

  /** Where task t stands, in terms of the labels hs so far. */
  ghost predicate TaskTold(s: State, hs: seq<Label>, t: Id)
    requires t in s.tasks
  {
    match s.tasks[t]
    case LoadingToken(device) => CreateBegins(t, device) in hs && WhepAccepted(t, true) !in hs
    case AwaitingStart(device, req) =>
      && CreateBegins(t, device) in hs && WhepAccepted(t, true) !in hs
      && (req in s.inbox && s.inbox[req].PostSession? ==> s.inbox[req].device == device)
      && (req in s.sidecar.starting ==> s.sidecar.starting[req].device == device)
      && (req in s.sidecar.replies && s.sidecar.replies[req].Created? ==>
            EntryFor(s, s.sidecar.replies[req].bridge, device))
    case HoldingReply(device, b) =>
      CreateBegins(t, device) in hs && WhepAccepted(t, true) !in hs && EntryFor(s, b, device)
    case AwaitingWhep(sid, _) => Bind(t, sid) in hs
    case Deleting(sid, _, _) => DeleteBegins(t, sid) in hs
    case _ => true
  }

  /** Session sid was bound by task t. */
  ghost predicate BoundBy(s: State, hs: seq<Label>, sid: Id, t: Id)
    requires sid in s.sessions
  {
    var session := s.sessions[sid];
    && Bind(t, sid) in hs && CreateBegins(t, session.device) in hs
    && (session.hasAudio <==> WhepAccepted(t, true) in hs)
    && EntryFor(s, session.bridge, session.device)
    && t in s.used
    && (t in s.tasks ==> s.tasks[t] == AwaitingWhep(sid, session.bridge) && !session.hasAudio)
    && (forall q | q in s.tasks && s.tasks[q].AwaitingWhep? && s.tasks[q].sid == sid :: q == t)
  }

  /** A POST on its way carries the device of its create call and the token loaded for it. */
  ghost predicate PostTold(s: State, hs: seq<Label>, r: Id)
    requires r in s.inbox && s.inbox[r].PostSession?
  {
    exists t :: CreateBegins(t, s.inbox[r].device) in hs && TokenLoaded(t, r, Some(s.inbox[r].token)) in hs
  }

  ghost predicate TasksTold(s: State, hs: seq<Label>) {
    forall t {:trigger TaskTold(s, hs, t)} | t in s.tasks :: TaskTold(s, hs, t)
  }

  ghost predicate SessionsTold(s: State, hs: seq<Label>) {
    forall sid | sid in s.sessions :: exists t :: BoundBy(s, hs, sid, t)
  }

  ghost predicate PostsTold(s: State, hs: seq<Label>) {
    forall r {:trigger PostTold(s, hs, r)} | r in s.inbox && s.inbox[r].PostSession? :: PostTold(s, hs, r)
  }

  ghost predicate Told(s: State, hs: seq<Label>) {
    && TasksTold(s, hs) && SessionsTold(s, hs) && PostsTold(s, hs)
    && forall t :: WhepAccepted(t, true) in hs ==> t in s.used
  }

  // ---- one label of the adapter ----------------------------------------------------------

  /** From s to u task t acted and left the sessions that stay as they were. */
  ghost predicate Acts(s: State, u: State, t: Id) {
    && OnlyTask(s, u, t)
    && (forall sid | sid in s.sessions && sid in u.sessions :: u.sessions[sid] == s.sessions[sid])
  }

  lemma OtherTold(s: State, u: State, hs: seq<Label>, l: Label, t: Id, q: Id)
    requires KeysUsed(s) && OnlyTask(s, u, t) && q != t && q in s.tasks && TaskOk(s, q) && TaskTold(s, hs, q)
    requires l.WhepAccepted? ==> l.t == t
    ensures q in u.tasks && TaskTold(u, hs + [l], q)
  {
    assert u.tasks[q] == s.tasks[q];
    if s.tasks[q].AwaitingStart? {
      assert s.tasks[q].req in s.used;
    }
  }

  lemma StillBound(s: State, u: State, hs: seq<Label>, l: Label, t: Id, sid: Id, maker: Id)
    requires KeysUsed(s) && Acts(s, u, t) && sid in s.sessions && sid in u.sessions && BoundBy(s, hs, sid, maker)
    requires l != WhepAccepted(maker, true)
    requires maker == t ==> t !in u.tasks
    requires t in u.tasks && u.tasks[t].AwaitingWhep? ==> u.tasks[t].sid != sid
    ensures BoundBy(u, hs + [l], sid, maker)
  {
    assert maker != t && maker in u.tasks ==> maker in s.tasks;
    forall q | q in u.tasks && u.tasks[q].AwaitingWhep? && u.tasks[q].sid == sid ensures q == maker {
      assert u.tasks[q] == s.tasks[q];
    }
  }

  /** What remains to be shown for a label of task t that accepts no WHEP answer. */
  lemma AllTold(s: State, u: State, hs: seq<Label>, l: Label, t: Id)
    requires Inv(s) && Told(s, hs) && Acts(s, u, t) && !l.WhepAccepted?
    requires t in u.tasks ==> TaskTold(u, hs + [l], t)
    requires t in s.tasks && s.tasks[t].AwaitingWhep? ==> t !in u.tasks || s.tasks[t].sid !in u.sessions
    requires t in s.tasks || t !in s.used
    requires t in u.tasks && u.tasks[t].AwaitingWhep? ==> u.tasks[t].sid !in s.sessions
    requires forall sid | sid in u.sessions && sid !in s.sessions :: exists maker :: BoundBy(u, hs + [l], sid, maker)
    requires forall r {:trigger PostTold(u, hs + [l], r)} | r in u.inbox && u.inbox[r].PostSession? ::
               (r in s.inbox && u.inbox[r] == s.inbox[r]) || PostTold(u, hs + [l], r)
    ensures Told(u, hs + [l])
  {
    forall q | q in u.tasks ensures TaskTold(u, hs + [l], q) {
      if q != t {
        assert u.tasks[q] == s.tasks[q];
        assert TaskOk(s, q) && TaskTold(s, hs, q);
        OtherTold(s, u, hs, l, t, q);
      }
    }
    forall sid | sid in u.sessions ensures exists maker :: BoundBy(u, hs + [l], sid, maker) {
      if sid in s.sessions {
        var maker :| BoundBy(s, hs, sid, maker);
        StillBound(s, u, hs, l, t, sid, maker);
      }
    }
    forall r | r in u.inbox && u.inbox[r].PostSession? ensures PostTold(u, hs + [l], r) {
      if r in s.inbox && u.inbox[r] == s.inbox[r] {
        PostStillTold(s, u, hs, l, r);
      }
    }
  }

  /** A label that leaves map and inbox alone, of a task that has no part in the WHEP exchange. */
  lemma QuietTold(s: State, u: State, hs: seq<Label>, l: Label, t: Id)
    requires Inv(s) && Told(s, hs) && Acts(s, u, t) && !l.WhepAccepted?
    requires u.sessions == s.sessions && u.inbox == s.inbox && (t in s.tasks || t !in s.used)
    requires t in s.tasks ==> !s.tasks[t].AwaitingWhep?
    requires t in u.tasks ==> !u.tasks[t].AwaitingWhep? && TaskTold(u, hs + [l], t)
    ensures Told(u, hs + [l])
  {
    AllTold(s, u, hs, l, t);
  }

  /** Handing a fate on is no more than acting. */
  lemma HandoverActs(s: State, v: State, t: Id, bridge: Id, from: Fate, to: Fate)
    requires Acts(s, v, t) && v.fate == s.fate && (Owned(from, t) || from.InMap?)
    ensures Acts(s, Handover(v, bridge, from, to), t)
  {
  }

  lemma SetActs(s: State, t: Id, task: Task)
    ensures Acts(s, SetTask(s, t, task), t)
  {
  }

  lemma EndTaskActs(s: State, t: Id, gone: set<Id>)
    ensures Acts(s, EndTask(s, t).(sessions := s.sessions - gone), t) && Acts(s, EndTask(s, t), t)
  {
  }

  lemma RefusedActs(s: State, t: Id)
    ensures Acts(s, s.(used := s.used + {t}), t)
  {
  }

  lemma CreateActs(s: State, t: Id, device: Device)
    ensures Acts(s, DoCreateBegins(s, t, device), t)
  {
    RefusedActs(s, t);
    SetActs(s, t, LoadingToken(device));
  }

  lemma CreateTask(s: State, hs: seq<Label>, t: Id, device: Device)
    requires Told(s, hs) && t !in s.used && t !in s.tasks
    ensures var u := DoCreateBegins(s, t, device);
            && u.sessions == s.sessions && u.inbox == s.inbox
            && (t in u.tasks ==> u.tasks[t] == LoadingToken(device) && TaskTold(u, hs + [CreateBegins(t, device)], t))
  {
    assert CreateBegins(t, device) in hs + [CreateBegins(t, device)];
  }

  lemma CreateTold(s: State, hs: seq<Label>, t: Id, device: Device)
    requires Inv(s) && Told(s, hs) && Enabled(s, CreateBegins(t, device))
    ensures Told(DoCreateBegins(s, t, device), hs + [CreateBegins(t, device)])
  {
    CreateActs(s, t, device);
    CreateTask(s, hs, t, device);
    QuietTold(s, DoCreateBegins(s, t, device), hs, CreateBegins(t, device), t);
  }

  lemma TokenActs(s: State, t: Id, req: Id, token: Option<string>)
    requires KeysUsed(s) && Enabled(s, TokenLoaded(t, req, token))
    ensures Acts(s, DoTokenLoaded(s, t, req, token), t)
  {
  }

  lemma TokenTask(s: State, hs: seq<Label>, t: Id, req: Id, token: Option<string>)
    requires KeysUsed(s) && Enabled(s, TokenLoaded(t, req, token)) && TaskTold(s, hs, t)
    ensures var l := TokenLoaded(t, req, token);
            var u := DoTokenLoaded(s, t, req, token);
            && (t in u.tasks ==> TaskTold(u, hs + [l], t))
            && (req in u.inbox && token.Some? ==> u.inbox[req].PostSession? && PostTold(u, hs + [l], req))
  {
    var l := TokenLoaded(t, req, token);
    assert CreateBegins(t, s.tasks[t].device) in hs + [l] && l in hs + [l];
  }

  lemma TokenTold(s: State, hs: seq<Label>, t: Id, req: Id, token: Option<string>)
    requires Inv(s) && Told(s, hs) && Enabled(s, TokenLoaded(t, req, token))
    ensures Told(DoTokenLoaded(s, t, req, token), hs + [TokenLoaded(t, req, token)])
  {
    var l := TokenLoaded(t, req, token);
    var u := DoTokenLoaded(s, t, req, token);
    assert TaskTold(s, hs, t);
    TokenActs(s, t, req, token);
    TokenTask(s, hs, t, req, token);
    forall r | r in u.inbox && u.inbox[r].PostSession?
      ensures (r in s.inbox && u.inbox[r] == s.inbox[r]) || PostTold(u, hs + [l], r)
    {
    }
    AllTold(s, u, hs, l, t);
  }

  lemma StartActs(s: State, t: Id)
    requires KeysUsed(s) && Enabled(s, StartReplied(t))
    ensures Acts(s, DoStartReplied(s, t), t)
  {
    var reply := s.sidecar.replies[s.tasks[t].req];
    EndTaskActs(s, t, {});
    if reply.Created? {
      var task := HoldingReply(s.tasks[t].device, reply.bridge);
      SetActs(s, t, task);
      HandoverActs(s, SetTask(s, t, task), t, reply.bridge, AwaitedBy(t), HeldBy(t));
    }
  }

  lemma StartTask(s: State, hs: seq<Label>, t: Id)
    requires Enabled(s, StartReplied(t)) && TaskTold(s, hs, t)
    ensures var u := DoStartReplied(s, t);
            && u.sessions == s.sessions && u.inbox == s.inbox
            && (t in u.tasks ==> u.tasks[t].HoldingReply? && TaskTold(u, hs + [StartReplied(t)], t))
  {
  }

  lemma StartTold(s: State, hs: seq<Label>, t: Id)
    requires Inv(s) && Told(s, hs) && Enabled(s, StartReplied(t))
    ensures Told(DoStartReplied(s, t), hs + [StartReplied(t)])
  {
    assert TaskTold(s, hs, t);
    StartActs(s, t);
    StartTask(s, hs, t);
    QuietTold(s, DoStartReplied(s, t), hs, StartReplied(t), t);
  }

  lemma BindActs(s: State, t: Id, sid: Id)
    requires KeysUsed(s) && Enabled(s, Bind(t, sid))
    ensures Acts(s, DoBind(s, t, sid), t) && DoBind(s, t, sid).inbox == s.inbox
  {
  }

  lemma BindMakes(s: State, hs: seq<Label>, t: Id, sid: Id)
    requires Inv(s) && Told(s, hs) && Enabled(s, Bind(t, sid)) && TaskTold(s, hs, t)
    ensures BoundBy(DoBind(s, t, sid), hs + [Bind(t, sid)], sid, t)
  {
    var u := DoBind(s, t, sid);
    forall q | q in u.tasks && u.tasks[q].AwaitingWhep? && u.tasks[q].sid == sid ensures q == t {
      assert q in s.tasks && TaskOk(s, q);
    }
  }

  lemma BindTold(s: State, hs: seq<Label>, t: Id, sid: Id)
    requires Inv(s) && Told(s, hs) && Enabled(s, Bind(t, sid))
    ensures Told(DoBind(s, t, sid), hs + [Bind(t, sid)])
  {
    var u := DoBind(s, t, sid);
    assert TaskTold(s, hs, t);
    BindActs(s, t, sid);
    BindMakes(s, hs, t, sid);
    assert Bind(t, sid) in hs + [Bind(t, sid)];
    AllTold(s, u, hs, Bind(t, sid), t);
  }

  lemma WhepFailedActs(s: State, t: Id)
    requires KeysUsed(s) && Enabled(s, WhepFailed(t))
    ensures Acts(s, DoWhepFailed(s, t), t) && DoWhepFailed(s, t).inbox == s.inbox
    ensures DoWhepFailed(s, t).sessions == s.sessions - {s.tasks[t].sid}
  {
  }

  lemma WhepFailedTold(s: State, hs: seq<Label>, t: Id)
    requires Inv(s) && Told(s, hs) && Enabled(s, WhepFailed(t))
    ensures Told(DoWhepFailed(s, t), hs + [WhepFailed(t)])
  {
    WhepFailedActs(s, t);
    AllTold(s, DoWhepFailed(s, t), hs, WhepFailed(t), t);
  }

  /** The answer of the WHEP exchange goes to the session that the task bound, and to no
      other one. */
  lemma AcceptedBound(s: State, hs: seq<Label>, t: Id, audio: bool, sid: Id, maker: Id)
    requires KeysUsed(s) && Enabled(s, WhepAccepted(t, audio)) && sid in s.sessions && BoundBy(s, hs, sid, maker)
    ensures BoundBy(DoWhepAccepted(s, t, audio), hs + [WhepAccepted(t, audio)], sid, maker)
  {
  }

  lemma AcceptedTasks(s: State, hs: seq<Label>, t: Id, audio: bool)
    requires Inv(s) && Told(s, hs) && Enabled(s, WhepAccepted(t, audio))
    ensures TasksTold(DoWhepAccepted(s, t, audio), hs + [WhepAccepted(t, audio)])
  {
    var u := DoWhepAccepted(s, t, audio);
    forall q | q in u.tasks ensures TaskTold(u, hs + [WhepAccepted(t, audio)], q) {
      assert q in s.tasks && TaskTold(s, hs, q);
    }
  }

  lemma AcceptedTold(s: State, hs: seq<Label>, t: Id, audio: bool)
    requires Inv(s) && Told(s, hs) && Enabled(s, WhepAccepted(t, audio))
    ensures Told(DoWhepAccepted(s, t, audio), hs + [WhepAccepted(t, audio)])
  {
    var l, u := WhepAccepted(t, audio), DoWhepAccepted(s, t, audio);
    AcceptedTasks(s, hs, t, audio);
    forall sid | sid in u.sessions ensures exists maker :: BoundBy(u, hs + [l], sid, maker) {
      var maker :| BoundBy(s, hs, sid, maker);
      AcceptedBound(s, hs, t, audio, sid, maker);
    }
    forall r | r in u.inbox && u.inbox[r].PostSession? ensures PostTold(u, hs + [l], r) {
      PostStillTold(s, u, hs, l, r);
    }
  }

  lemma PostStillTold(s: State, u: State, hs: seq<Label>, l: Label, r: Id)
    requires PostsTold(s, hs) && r in s.inbox && r in u.inbox && u.inbox[r] == s.inbox[r] && s.inbox[r].PostSession?
    ensures PostTold(u, hs + [l], r)
  {
    assert PostTold(s, hs, r);
    var maker :| CreateBegins(maker, s.inbox[r].device) in hs && TokenLoaded(maker, r, Some(s.inbox[r].token)) in hs;
    assert CreateBegins(maker, u.inbox[r].device) in hs + [l];
    assert TokenLoaded(maker, r, Some(u.inbox[r].token)) in hs + [l];
  }

  lemma DeleteActs(s: State, t: Id, sid: Id)
    ensures Acts(s, DoDeleteBegins(s, t, sid), t)
  {
    RefusedActs(s, t);
    if sid in s.sessions {
      SetActs(s, t, Deleting(sid, s.sessions[sid].bridge, Unsent));
    }
  }

  lemma DeleteTold(s: State, hs: seq<Label>, t: Id, sid: Id)
    requires Inv(s) && Told(s, hs) && Enabled(s, DeleteBegins(t, sid))
    ensures Told(DoDeleteBegins(s, t, sid), hs + [DeleteBegins(t, sid)])
  {
    DeleteActs(s, t, sid);
    assert DeleteBegins(t, sid) in hs + [DeleteBegins(t, sid)];
    QuietTold(s, DoDeleteBegins(s, t, sid), hs, DeleteBegins(t, sid), t);
  }

  lemma CloseTold(s: State, hs: seq<Label>, t: Id, order: seq<Id>)
    requires Inv(s) && Told(s, hs) && Enabled(s, CloseBegins(t, order))
    ensures Told(DoCloseBegins(s, t, order), hs + [CloseBegins(t, order)])
  {
    CloseBeginsOnly(s, t, order);
    AllTold(s, DoCloseBegins(s, t, order), hs, CloseBegins(t, order), t);
  }

  /** A stop under way changes no session and sends no POST. */
  lemma StopActs(s: State, t: Id, l: Label)
    requires KeysUsed(s) && Enabled(s, l) && (l.StopSent? || l.StopReplied? || l.StopErred?) && l.t == t
    ensures Acts(s, Next(s, l), t) && Next(s, l).sessions == s.sessions
    ensures t in Next(s, l).tasks && Stopping(Next(s, l).tasks[t]) && Stopping(s.tasks[t])
    ensures Next(s, l).tasks[t] == s.tasks[t].(stop := Next(s, l).tasks[t].stop)
    ensures forall r | r in Next(s, l).inbox && Next(s, l).inbox[r].PostSession? ::
              r in s.inbox && Next(s, l).inbox[r] == s.inbox[r]
  {
  }

  lemma StopTold(s: State, hs: seq<Label>, t: Id, l: Label)
    requires Inv(s) && Told(s, hs)
    requires Enabled(s, l) && (l.StopSent? || l.StopReplied? || l.StopErred?) && l.t == t
    ensures Told(Next(s, l), hs + [l])
  {
    assert TaskTold(s, hs, t);
    StopActs(s, t, l);
    AllTold(s, Next(s, l), hs, l, t);
  }

  /** From s to u task t ended, or shutdown went on; sessions may have left the map. */
  ghost predicate EndsAct(s: State, u: State, t: Id) {
    && Acts(s, u, t) && u.inbox == s.inbox && u.sessions.Keys <= s.sessions.Keys
    && (t in u.tasks ==> u.tasks[t].Closing?)
  }

  lemma HandoverEnds(s: State, v: State, t: Id, bridge: Id, from: Fate, to: Fate)
    requires EndsAct(s, v, t) && v.fate == s.fate && (Owned(from, t) || from.InMap?)
    ensures EndsAct(s, Handover(v, bridge, from, to), t)
  {
    HandoverActs(s, v, t, bridge, from, to);
  }

  lemma GoOnActs(s: State, t: Id, rest: seq<Id>, bridge: Id, to: Fate)
    ensures var v := if rest == [] then EndTask(s, t) else SetTask(s, t, Closing(rest, Unsent));
            EndsAct(s, Handover(v, bridge, StopPending(t), to), t)
  {
    EndTaskActs(s, t, {});
    SetActs(s, t, Closing(rest, Unsent));
    HandoverEnds(s, if rest == [] then EndTask(s, t) else SetTask(s, t, Closing(rest, Unsent)), t,
                 bridge, StopPending(t), to);
  }

  lemma UnbindActs(s: State, t: Id, sid: Id, bridge: Id, to: Fate)
    ensures EndsAct(s, Unbind(s, t, sid, bridge, to), t)
  {
    EndTaskActs(s, t, {sid});
    HandoverEnds(s, EndTask(s, t).(sessions := s.sessions - {sid}), t, bridge, InMap(sid), to);
  }

  lemma LetGoActs(s: State, t: Id, bridge: Id, from: Fate, to: Fate)
    requires Owned(from, t)
    ensures EndsAct(s, Handover(EndTask(s, t), bridge, from, to), t) && EndsAct(s, EndTask(s, t), t)
  {
    EndTaskActs(s, t, {});
    HandoverEnds(s, EndTask(s, t), t, bridge, from, to);
  }

  lemma FinishedActs(s: State, t: Id)
    requires Enabled(s, StopFinished(t))
    ensures EndsAct(s, DoStopFinished(s, t), t)
  {
    var outcome := if s.tasks[t].stop.ok then Released else StopFailed;
    match s.tasks[t]
    case CleaningUp(bridge, _) => LetGoActs(s, t, bridge, StopPending(t), outcome);
    case Deleting(sid, bridge, _) => UnbindActs(s, t, sid, bridge, outcome);
    case Closing(bridges, _) => GoOnActs(s, t, bridges[1..], bridges[0], outcome);
  }

  lemma ClosingActs(s: State, t: Id)
    requires Enabled(s, Abandoned(t)) && s.tasks[t].Closing?
    ensures EndsAct(s, DoAbandoned(s, t), t)
  {
  }

  lemma AbandonedActs(s: State, t: Id)
    requires Enabled(s, Abandoned(t))
    ensures EndsAct(s, DoAbandoned(s, t), t)
  {
    LetGoActs(s, t, 0, HeldBy(t), Leaked);
    match s.tasks[t]
    case AwaitingStart(_, req) =>
      if req in s.sidecar.replies && s.sidecar.replies[req].Created? {
        LetGoActs(s, t, s.sidecar.replies[req].bridge, AwaitedBy(t), Leaked);
      }
    case HoldingReply(_, bridge) => LetGoActs(s, t, bridge, HeldBy(t), Leaked);
    case CleaningUp(bridge, _) => LetGoActs(s, t, bridge, StopPending(t), Leaked);
    case Deleting(sid, bridge, _) => UnbindActs(s, t, sid, bridge, Leaked);
    case Closing(_, _) => ClosingActs(s, t);
    case _ =>
  }

  lemma EndTold(s: State, hs: seq<Label>, t: Id, l: Label)
    requires Inv(s) && Told(s, hs) && Enabled(s, l) && (l.StopFinished? || l.Abandoned?) && l.t == t
    ensures Told(Next(s, l), hs + [l])
  {
    if l.StopFinished? {
      FinishedActs(s, t);
    } else {
      AbandonedActs(s, t);
    }
    AllTold(s, Next(s, l), hs, l, t);
  }

  // ---- one event of the sidecar -------------------------------------------------------------

  lemma EntryStaysFor(s: State, e: SC.Event, b: Id, device: Device)
    requires SidecarOk(s) && Enabled(s, AtSidecar(e)) && b in s.fate && EntryFor(s, b, device)
    ensures EntryFor(DoAtSidecar(s, e), b, device)
  {
    SC.EntryLife(s.sidecar, e, b);
  }

  /** What is known of the POST req, wherever it is, is that it is for the device. */
  ghost predicate PostFor(s: State, req: Id, device: Device) {
    && (req in s.inbox && s.inbox[req].PostSession? ==> s.inbox[req].device == device)
    && (req in s.sidecar.starting ==> s.sidecar.starting[req].device == device)
    && (req in s.sidecar.replies && s.sidecar.replies[req].Created? ==>
          EntryFor(s, s.sidecar.replies[req].bridge, device))
  }

  lemma PostArrivesFor(s: State, e: SC.Event, req: Id, device: Device)
    requires SidecarOk(s) && Enabled(s, AtSidecar(e)) && e.PostArrives? && PostFor(s, req, device)
    ensures PostFor(DoAtSidecar(s, e), req, device)
  {
    assert DoAtSidecar(s, e).sidecar.sessions == s.sidecar.sessions;
  }

  lemma RequestEndsFor(s: State, e: SC.Event, req: Id, device: Device)
    requires SidecarOk(s) && Enabled(s, AtSidecar(e)) && PostFor(s, req, device)
    requires e.FactoryFails? || e.StopReturns?
    ensures PostFor(DoAtSidecar(s, e), req, device)
  {
  }

  lemma DeleteArrivesFor(s: State, e: SC.Event, req: Id, device: Device)
    requires SidecarOk(s) && Enabled(s, AtSidecar(e)) && PostFor(s, req, device) && e.DeleteArrives?
    ensures PostFor(DoAtSidecar(s, e), req, device)
  {
  }

  lemma TerminationFor(s: State, e: SC.Event, req: Id, device: Device)
    requires SidecarOk(s) && Enabled(s, AtSidecar(e)) && PostFor(s, req, device)
    requires e.Terminates? || e.TimerFires?
    ensures PostFor(DoAtSidecar(s, e), req, device)
  {
  }

  lemma StartsFor(s: State, e: SC.Event, req: Id, device: Device)
    requires SidecarOk(s) && Enabled(s, AtSidecar(e)) && e.FactoryStarts? && PostFor(s, req, device)
    requires req in s.sidecar.replies && s.sidecar.replies[req].Created? ==> s.sidecar.replies[req].bridge in s.fate
    ensures PostFor(DoAtSidecar(s, e), req, device)
  {
    assert s.sidecar.starting[e.req].bridge !in s.fate;
  }

  lemma StaysFor(s: State, e: SC.Event, req: Id, device: Device)
    requires SidecarOk(s) && Enabled(s, AtSidecar(e)) && PostFor(s, req, device)
    requires req in s.sidecar.replies && s.sidecar.replies[req].Created? ==> s.sidecar.replies[req].bridge in s.fate
    ensures PostFor(DoAtSidecar(s, e), req, device)
  {
    match e
    case PostArrives(_, _, _, _) => PostArrivesFor(s, e, req, device);
    case FactoryStarts(_, _, _) => StartsFor(s, e, req, device);
    case DeleteArrives(_, _, _) => DeleteArrivesFor(s, e, req, device);
    case Terminates(_) => TerminationFor(s, e, req, device);
    case TimerFires(_) => TerminationFor(s, e, req, device);
    case _ => RequestEndsFor(s, e, req, device);
  }

  lemma SidecarTaskTold(s: State, hs: seq<Label>, e: SC.Event, t: Id)
    requires SidecarOk(s) && Enabled(s, AtSidecar(e)) && t in s.tasks && TaskOk(s, t) && TaskTold(s, hs, t)
    ensures t in DoAtSidecar(s, e).tasks && TaskTold(DoAtSidecar(s, e), hs + [AtSidecar(e)], t)
  {
    var u := DoAtSidecar(s, e);
    assert u.tasks == s.tasks;
    match s.tasks[t]
    case AwaitingStart(device, req) => StaysFor(s, e, req, device);
    case HoldingReply(device, b) => EntryStaysFor(s, e, b, device);
    case _ =>
  }

  lemma SidecarBound(s: State, hs: seq<Label>, e: SC.Event, sid: Id, maker: Id)
    requires SidecarOk(s) && Enabled(s, AtSidecar(e))
    requires sid in s.sessions && BoundOk(s, sid) && BoundBy(s, hs, sid, maker)
    ensures sid in DoAtSidecar(s, e).sessions && BoundBy(DoAtSidecar(s, e), hs + [AtSidecar(e)], sid, maker)
  {
    EntryStaysFor(s, e, s.sessions[sid].bridge, s.sessions[sid].device);
  }

  lemma SidecarInboxKept(s: State, e: SC.Event)
    requires Enabled(s, AtSidecar(e))
    ensures var u := DoAtSidecar(s, e); u.tasks == s.tasks && u.sessions == s.sessions && u.used == s.used
    ensures var u := DoAtSidecar(s, e); forall r | r in u.inbox :: r in s.inbox && u.inbox[r] == s.inbox[r]
  {
  }

  lemma SidecarTold(s: State, hs: seq<Label>, e: SC.Event)
    requires Inv(s) && Told(s, hs) && Enabled(s, AtSidecar(e))
    ensures Told(DoAtSidecar(s, e), hs + [AtSidecar(e)])
  {
    var l, u := AtSidecar(e), DoAtSidecar(s, e);
    SidecarInboxKept(s, e);
    forall t | t in u.tasks ensures TaskTold(u, hs + [l], t) {
      assert TaskOk(s, t) && TaskTold(s, hs, t);
      SidecarTaskTold(s, hs, e, t);
    }
    forall sid | sid in u.sessions ensures exists maker :: BoundBy(u, hs + [l], sid, maker) {
      assert BoundOk(s, sid);
      var maker :| BoundBy(s, hs, sid, maker);
      SidecarBound(s, hs, e, sid, maker);
    }
    forall r | r in u.inbox && u.inbox[r].PostSession? ensures PostTold(u, hs + [l], r) {
      PostStillTold(s, u, hs, l, r);
    }
  }

  // ---- runs ------------------------------------------------------------------------------------

  lemma NextTold(s: State, hs: seq<Label>, l: Label)
    requires Inv(s) && Told(s, hs) && Enabled(s, l)
    ensures Told(Next(s, l), hs + [l])
  {
    match l
    case CreateBegins(t, device) => CreateTold(s, hs, t, device);
    case TokenLoaded(t, req, token) => TokenTold(s, hs, t, req, token);
    case StartReplied(t) => StartTold(s, hs, t);
    case Bind(t, sid) => BindTold(s, hs, t, sid);
    case WhepAccepted(t, audio) => AcceptedTold(s, hs, t, audio);
    case WhepFailed(t) => WhepFailedTold(s, hs, t);
    case DeleteBegins(t, sid) => DeleteTold(s, hs, t, sid);
    case CloseBegins(t, order) => CloseTold(s, hs, t, order);
    case StopSent(t, _) => StopTold(s, hs, t, l);
    case StopReplied(t) => StopTold(s, hs, t, l);
    case StopErred(t) => StopTold(s, hs, t, l);
    case StopFinished(t) => EndTold(s, hs, t, l);
    case Abandoned(t) => EndTold(s, hs, t, l);
    case AtSidecar(e) => SidecarTold(s, hs, e);
  }

  lemma Shifted(hs: seq<Label>, ls: seq<Label>)
    requires ls != []
    ensures (hs + [ls[0]]) + ls[1..] == hs + ls
  {}

  lemma {:induction false} RunTold(s: State, hs: seq<Label>, ls: seq<Label>)
    requires Inv(s) && Told(s, hs) && Run(s, ls)
    ensures Told(Exec(s, ls), hs + ls)
    decreases |ls|
  {
    if ls == [] {
      assert hs + ls == hs;
    } else {
      NextTold(s, hs, ls[0]);
      NextKeepsInv(s, ls[0]);
      RunTold(Next(s, ls[0]), hs + [ls[0]], ls[1..]);
      Shifted(hs, ls);
    }
  }

  /** On every run: a session of the map was bound by a create call for its device; it says
      that there is audio exactly if the WHEP answer to that call said so; and the entry that
      the sidecar has under its bridge id is one for that device. */
  lemma SessionWasCreated(max: int, ls: seq<Label>, sid: Id) returns (t: Id)
    requires Run(Init(max), ls) && sid in Exec(Init(max), ls).sessions
    ensures var s := Exec(Init(max), ls);
            var session := s.sessions[sid];
            && CreateBegins(t, session.device) in ls && Bind(t, sid) in ls
            && (session.hasAudio <==> WhepAccepted(t, true) in ls)
            && (session.bridge in s.sidecar.sessions ==>
                  s.sidecar.sessions[session.bridge].device == session.device)
  {
    RunTold(Init(max), [], ls);
    assert [] + ls == ls;
    t :| BoundBy(Exec(Init(max), ls), ls, sid, t);
  }

  /** On every run: a POST on its way to the sidecar carries the device of a create call and
      the token that was loaded for that very call. */
  lemma PostWasAsked(max: int, ls: seq<Label>, r: Id) returns (t: Id)
    requires Run(Init(max), ls) && r in Exec(Init(max), ls).inbox && Exec(Init(max), ls).inbox[r].PostSession?
    ensures var post := Exec(Init(max), ls).inbox[r];
            CreateBegins(t, post.device) in ls && TokenLoaded(t, r, Some(post.token)) in ls
  {
    RunTold(Init(max), [], ls);
    assert [] + ls == ls;
    var s := Exec(Init(max), ls);
    assert PostTold(s, ls, r);
    t :| CreateBegins(t, s.inbox[r].device) in ls && TokenLoaded(t, r, Some(s.inbox[r].token)) in ls;
  }
}
