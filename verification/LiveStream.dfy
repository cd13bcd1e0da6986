/** The live-stream protocol between the Python adapter (unofficial.py, session_map.py,
    sip_bridge_client.py) and the Node sidecar.  A coroutine is a task with a program
    counter; it runs without interruption up to each `await`, so one label is one
    stretch of coroutine or handler code.  Any number of tasks interleave freely. */
module LiveStream {
  import opened Common
  import SC = Sidecar

  type Id = SC.Id
  type Device = SC.Device

  datatype Session = Session(bridge: Id, device: Device, hasAudio: bool)

  /** HTTP requests on their way to the sidecar. */
  datatype Request = PostSession(device: Device, token: string) | DeleteSession(bridge: Id)

  /** Progress of one sip.stop call. */
  datatype Stop = Unsent | Sent(req: Id) | Stopped(ok: bool)

  datatype Task =
    | LoadingToken(device: Device)                      // create: capacity checked
    | AwaitingStart(device: Device, req: Id)            // create: POST sent
    | HoldingReply(device: Device, bridge: Id)          // create: 201 read, not bound
    | AwaitingWhep(sid: Id, bridge: Id)                 // create: bound, WHEP in flight
    | CleaningUp(bridge: Id, stop: Stop)                // _cleanup_failed_session after remove
    | Deleting(sid: Id, bridge: Id, stop: Stop)         // delete_stream_session after lookup
    | Closing(bridges: seq<Id>, stop: Stop)             // aclose after clear; bridges[0] is next

  /** History: who answers for a bridge id since its sidecar entry was made. */
  datatype Fate =
    | AwaitedBy(task: Id)
    | HeldBy(task: Id)
    | InMap(sid: Id)
    | StopPending(task: Id)
    | Released
    | StopFailed
    | Leaked

  datatype State = State(
    max: int,
    sessions: map<Id, Session>,
    tasks: map<Id, Task>,
    sidecar: SC.Bridge,
    inbox: map<Id, Request>,
    callers: map<Id, Id>,       // history: which task sent a POST
    fate: map<Id, Fate>,        // history
    used: set<Id>)              // task, request and session ids drawn so far

  function Init(max: int): State {
    State(max, map[], map[], SC.EMPTY, map[], map[], map[], {})
  }

  datatype Label =
    | CreateBegins(t: Id, device: Device)
    | TokenLoaded(t: Id, req: Id, token: Option<string>)
    | StartReplied(t: Id)
    | Bind(t: Id, sid: Id)
    | WhepAccepted(t: Id, audio: bool)
    | WhepFailed(t: Id)
    | DeleteBegins(t: Id, sid: Id)
    | CloseBegins(t: Id, order: seq<Id>)
    | StopSent(t: Id, req: Id)
    | StopReplied(t: Id)
    | StopErred(t: Id)
    | StopFinished(t: Id)
    | Abandoned(t: Id)
    | AtSidecar(e: SC.Event)

  predicate Lists<T(==)>(order: seq<T>, keys: set<T>) {
    && (forall x | x in order :: x in keys)
    && (forall x | x in keys :: x in order)
    && (forall i, j | 0 <= i < j < |order| :: order[i] != order[j])
  }

  predicate Stopping(task: Task) {
    task.CleaningUp? || task.Deleting? || (task.Closing? && task.bridges != [])
  }

  /** The bridge id whose stop is under way. */
  function Target(task: Task): Id
    requires Stopping(task)
  {
    if task.Closing? then task.bridges[0] else task.bridge
  }

  predicate Enabled(s: State, l: Label) {
    match l
    case CreateBegins(t, _) => t !in s.used
    case TokenLoaded(t, req, _) => t in s.tasks && s.tasks[t].LoadingToken? && req !in s.used
    case StartReplied(t) => t in s.tasks && s.tasks[t].AwaitingStart? && s.tasks[t].req in s.sidecar.replies
    case Bind(t, sid) => t in s.tasks && s.tasks[t].HoldingReply? && sid !in s.used
    case WhepAccepted(t, _) => t in s.tasks && s.tasks[t].AwaitingWhep?
    case WhepFailed(t) => t in s.tasks && s.tasks[t].AwaitingWhep?
    case DeleteBegins(t, _) => t !in s.used
    case CloseBegins(t, order) => t !in s.used && Lists(order, s.sessions.Keys)
    case StopSent(t, req) => t in s.tasks && Stopping(s.tasks[t]) && s.tasks[t].stop.Unsent? && req !in s.used
    case StopReplied(t) =>
      t in s.tasks && Stopping(s.tasks[t]) && s.tasks[t].stop.Sent? && s.tasks[t].stop.req in s.sidecar.replies
    case StopErred(t) => t in s.tasks && Stopping(s.tasks[t]) && s.tasks[t].stop.Sent?
    case StopFinished(t) => t in s.tasks && Stopping(s.tasks[t]) && s.tasks[t].stop.Stopped?
    case Abandoned(t) => t in s.tasks
    case AtSidecar(e) =>
      && SC.Enabled(s.sidecar, e)
      && (e.PostArrives? ==> e.req in s.inbox && s.inbox[e.req] == PostSession(e.device, e.token))
      && (e.DeleteArrives? ==> e.req in s.inbox && s.inbox[e.req] == DeleteSession(e.id))
  }

  function SetTask(s: State, t: Id, task: Task): State {
    s.(tasks := s.tasks[t := task], used := s.used + {t})
  }

  function EndTask(s: State, t: Id): State {
    s.(tasks := s.tasks - {t})
  }

  function SetFate(s: State, bridge: Id, fate: Fate): State {
    s.(fate := s.fate[bridge := fate])
  }

  /** Moves the fate of a bridge id on, unless another party took it over before. */
  function Handover(s: State, bridge: Id, from: Fate, to: Fate): State {
    if bridge in s.fate && s.fate[bridge] == from then SetFate(s, bridge, to) else s
  }

  // ---- create_stream_session ---------------------------------------------

  /** StreamSessionMap.check_capacity. */
  function DoCreateBegins(s: State, t: Id, device: Device): State {
    if |s.sessions| >= s.max then s.(used := s.used + {t})
    else SetTask(s, t, LoadingToken(device))
  }

  function DoTokenLoaded(s: State, t: Id, req: Id, token: Option<string>): State
    requires Enabled(s, TokenLoaded(t, req, token))
  {
    if token.None? then EndTask(s, t)
    else
      var device := s.tasks[t].device;
      SetTask(s, t, AwaitingStart(device, req)).(
        inbox := s.inbox[req := PostSession(device, token.value)],
        callers := s.callers[req := t],
        used := s.used + {t, req})
  }

  /** The status branches of SipBridgeClient.start: 201 goes on, all else raises. */
  function DoStartReplied(s: State, t: Id): State
    requires Enabled(s, StartReplied(t))
  {
    var reply := s.sidecar.replies[s.tasks[t].req];
    if reply.Created? then
      Handover(SetTask(s, t, HoldingReply(s.tasks[t].device, reply.bridge)),
               reply.bridge, AwaitedBy(t), HeldBy(t))
    else EndTask(s, t)
  }

  function DoBind(s: State, t: Id, sid: Id): State
    requires Enabled(s, Bind(t, sid))
  {
    var task := s.tasks[t];
    Handover(SetTask(s, t, AwaitingWhep(sid, task.bridge)).(
               sessions := s.sessions[sid := Session(task.bridge, task.device, false)],
               used := s.used + {t, sid}),
             task.bridge, HeldBy(t), InMap(sid))
  }

  function DoWhepAccepted(s: State, t: Id, audio: bool): State
    requires Enabled(s, WhepAccepted(t, audio))
  {
    var sid := s.tasks[t].sid;
    EndTask(s, t).(sessions := if sid in s.sessions then s.sessions[sid := s.sessions[sid].(hasAudio := audio)]
                               else s.sessions)
  }

  /** Timeout, transport error or a status other than 201: remove, then stop. */
  function DoWhepFailed(s: State, t: Id): State
    requires Enabled(s, WhepFailed(t))
  {
    var task := s.tasks[t];
    Handover(SetTask(s, t, CleaningUp(task.bridge, Unsent)).(sessions := s.sessions - {task.sid}),
             task.bridge, InMap(task.sid), StopPending(t))
  }

  // ---- delete_stream_session and aclose ----------------------------------

  function DoDeleteBegins(s: State, t: Id, sid: Id): State {
    if sid !in s.sessions then s.(used := s.used + {t})
    else SetTask(s, t, Deleting(sid, s.sessions[sid].bridge, Unsent))
  }

  function DoCloseBegins(s: State, t: Id, order: seq<Id>): State
    requires Enabled(s, CloseBegins(t, order))
  {
    var bridges := seq(|order|, i requires 0 <= i < |order| => s.sessions[order[i]].bridge);
    (if bridges == [] then s.(used := s.used + {t}) else SetTask(s, t, Closing(bridges, Unsent))).(
      sessions := map[],
      fate := map b | b in s.fate :: if s.fate[b].InMap? then StopPending(t) else s.fate[b])
  }

  // ---- one sip.stop call --------------------------------------------------

  function DoStopSent(s: State, t: Id, req: Id): State
    requires Enabled(s, StopSent(t, req))
  {
    SetTask(s, t, s.tasks[t].(stop := Sent(req))).(
      inbox := s.inbox[req := DeleteSession(Target(s.tasks[t]))],
      used := s.used + {t, req})
  }

  function DoStopReplied(s: State, t: Id): State
    requires Enabled(s, StopReplied(t))
  {
    SetTask(s, t, s.tasks[t].(stop := Stopped(s.sidecar.replies[s.tasks[t].stop.req] == SC.NoContent)))
  }

  function DoStopErred(s: State, t: Id): State
    requires Enabled(s, StopErred(t))
  {
    SetTask(s, t, s.tasks[t].(stop := Stopped(false)))
  }

  /** What follows the stop: cleanup is done, delete removes (its `finally`), and
      shutdown goes on with its next session. */
  function DoStopFinished(s: State, t: Id): State
    requires Enabled(s, StopFinished(t))
  {
    var task := s.tasks[t];
    var outcome := if task.stop.ok then Released else StopFailed;
    match task
    case CleaningUp(bridge, _) => Handover(EndTask(s, t), bridge, StopPending(t), outcome)
    case Deleting(sid, bridge, _) =>
      Handover(EndTask(s, t).(sessions := s.sessions - {sid}), bridge, InMap(sid), outcome)
    case Closing(bridges, _) =>
      var rest := bridges[1..];
      Handover(if rest == [] then EndTask(s, t) else SetTask(s, t, Closing(rest, Unsent)),
               bridges[0], StopPending(t), outcome)
    case _ => s
  }

  /** A start reply that is lost or times out, or a cancellation at an `await`.
      The `finally` of delete still removes; cleanup and shutdown stop short. */
  function DoAbandoned(s: State, t: Id): State
    requires Enabled(s, Abandoned(t))
  {
    match s.tasks[t]
    case AwaitingStart(_, req) =>
      if req in s.sidecar.replies && s.sidecar.replies[req].Created? then
        Handover(EndTask(s, t), s.sidecar.replies[req].bridge, AwaitedBy(t), Leaked)
      else EndTask(s, t)
    case HoldingReply(_, bridge) => Handover(EndTask(s, t), bridge, HeldBy(t), Leaked)
    case CleaningUp(bridge, _) => Handover(EndTask(s, t), bridge, StopPending(t), Leaked)
    case Deleting(sid, bridge, _) =>
      Handover(EndTask(s, t).(sessions := s.sessions - {sid}), bridge, InMap(sid), Leaked)
    case Closing(_, _) =>
      EndTask(s, t).(fate := map b | b in s.fate :: if s.fate[b] == StopPending(t) then Leaked else s.fate[b])
    case _ => EndTask(s, t)
  }

  // ---- the sidecar ---------------------------------------------------------

  predicate StillAwaited(s: State, req: Id) {
    && req in s.callers
    && s.callers[req] in s.tasks
    && s.tasks[s.callers[req]].AwaitingStart?
    && s.tasks[s.callers[req]].req == req
  }

  ghost function DoAtSidecar(s: State, e: SC.Event): State
    requires Enabled(s, AtSidecar(e))
  {
    var s1 := s.(sidecar := SC.Step(s.sidecar, e));
    match e
    case PostArrives(req, _, _, _) => s1.(inbox := s.inbox - {req})
    case DeleteArrives(req, _, _) => s1.(inbox := s.inbox - {req})
    case FactoryStarts(req, _, _) =>
      SetFate(s1, s.sidecar.starting[req].bridge,
              if StillAwaited(s, req) then AwaitedBy(s.callers[req]) else Leaked)
    case _ => s1
  }

  ghost function Next(s: State, l: Label): State
    requires Enabled(s, l)
  {
    match l
    case CreateBegins(t, device) => DoCreateBegins(s, t, device)
    case TokenLoaded(t, req, token) => DoTokenLoaded(s, t, req, token)
    case StartReplied(t) => DoStartReplied(s, t)
    case Bind(t, sid) => DoBind(s, t, sid)
    case WhepAccepted(t, audio) => DoWhepAccepted(s, t, audio)
    case WhepFailed(t) => DoWhepFailed(s, t)
    case DeleteBegins(t, sid) => DoDeleteBegins(s, t, sid)
    case CloseBegins(t, order) => DoCloseBegins(s, t, order)
    case StopSent(t, req) => DoStopSent(s, t, req)
    case StopReplied(t) => DoStopReplied(s, t)
    case StopErred(t) => DoStopErred(s, t)
    case StopFinished(t) => DoStopFinished(s, t)
    case Abandoned(t) => DoAbandoned(s, t)
    case AtSidecar(e) => DoAtSidecar(s, e)
  }

  ghost predicate Run(s: State, ls: seq<Label>)
    decreases |ls|
  {
    ls == [] || (Enabled(s, ls[0]) && Run(Next(s, ls[0]), ls[1..]))
  }

  ghost function Exec(s: State, ls: seq<Label>): State
    requires Run(s, ls)
    decreases |ls|
  {
    if ls == [] then s else Exec(Next(s, ls[0]), ls[1..])
  }
}
