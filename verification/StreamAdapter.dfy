/** The registry and the adapter as objects that are updated in place.  Each method
    is one stretch of a coroutine and is proved to do exactly what the protocol
    label of the same name does. */
module StreamAdapter {
  import opened Common
  import SC = Sidecar
  import opened LiveStream

  /** StreamSessionMap: no method awaits while it holds the lock, so each is one step. */
  class StreamSessionMap {
    var sessions: map<Id, Session>

    constructor ()
      ensures sessions == map[]
    {
      sessions := map[];
    }

    /** False is the ValueError for a duplicate session id. */
    method Bind(sid: Id, session: Session) returns (ok: bool)
      modifies this
      ensures ok == (sid !in old(sessions))
      ensures sessions == if ok then old(sessions)[sid := session] else old(sessions)
    {
      if sid in sessions {
        return false;
      }
      sessions := sessions[sid := session];
      ok := true;
    }

    method Lookup(sid: Id) returns (session: Option<Session>)
      ensures session == if sid in sessions then Some(sessions[sid]) else None
    {
      session := if sid in sessions then Some(sessions[sid]) else None;
    }

    method Remove(sid: Id) returns (session: Option<Session>)
      modifies this
      ensures session == if sid in old(sessions) then Some(old(sessions)[sid]) else None
      ensures sessions == old(sessions) - {sid}
    {
      session := Lookup(sid);
      sessions := sessions - {sid};
    }

    /** False is StreamCapacityExceededError. */
    method CheckCapacity(max: int) returns (ok: bool)
      ensures ok == (|sessions| < max)
    {
      ok := |sessions| < max;
    }

    /** The removed sessions, each once. */
    method Clear() returns (all: seq<Session>, order: seq<Id>)
      modifies this
      ensures sessions == map[]
      ensures Lists(order, old(sessions).Keys)
      ensures |all| == |order| && forall i | 0 <= i < |all| :: all[i] == old(sessions)[order[i]]
    {
      all, order := [], [];
      var rest := sessions.Keys;
      while rest != {}
        invariant rest <= sessions.Keys
        invariant Lists(order, sessions.Keys - rest)
        invariant |all| == |order|
        invariant forall i | 0 <= i < |all| :: order[i] in sessions && all[i] == sessions[order[i]]
        decreases |rest|
      {
        var sid :| sid in rest;
        assert sid !in order;
        all, order, rest := all + [sessions[sid]], order + [sid], rest - {sid};
      }
      sessions := map[];
    }
  }

  /** What a call raises at the end of a stretch. */
  datatype Error = StreamCapacityExceeded | StreamSessionNotFound | AuthenticationRequired | UpstreamUnavailable

  class UnofficialRingAdapter {
    const registry: StreamSessionMap
    const maxConcurrent: int
    var tasks: map<Id, Task>          // the suspended coroutines
    var inbox: map<Id, Request>       // HTTP requests sent to the sidecar
    ghost var callers: map<Id, Id>
    ghost var fate: map<Id, Fate>
    ghost var used: set<Id>

    ghost function View(sidecar: SC.Bridge): State
      reads this, registry
    {
      State(maxConcurrent, registry.sessions, tasks, sidecar, inbox, callers, fate, used)
    }

    constructor (max: int)
      ensures View(SC.EMPTY) == Init(max) && fresh(registry)
    {
      registry := new StreamSessionMap();
      maxConcurrent, tasks, inbox := max, map[], map[];
      callers, fate, used := map[], map[], {};
    }

    /** Brings the history variables to those of the protocol state s. */
    ghost method Record(s: State)
      modifies this
      ensures callers == s.callers && fate == s.fate && used == s.used
      ensures tasks == old(tasks) && inbox == old(inbox)
    {
      callers, fate, used := s.callers, s.fate, s.used;
    }

    method CreateBegins(t: Id, device: Device, ghost sidecar: SC.Bridge) returns (raised: Option<Error>)
      requires Enabled(View(sidecar), LiveStream.CreateBegins(t, device))
      modifies this
      ensures raised == if |registry.sessions| < maxConcurrent then None else Some(StreamCapacityExceeded)
      ensures View(sidecar) == DoCreateBegins(old(View(sidecar)), t, device)
    {
      ghost var s := DoCreateBegins(View(sidecar), t, device);
      var ok := registry.CheckCapacity(maxConcurrent);
      if ok {
        tasks := tasks[t := LoadingToken(device)];
      }
      raised := if ok then None else Some(StreamCapacityExceeded);
      Record(s);
    }

    method TokenLoaded(t: Id, req: Id, token: Option<string>, ghost sidecar: SC.Bridge)
      returns (raised: Option<Error>)
      requires Enabled(View(sidecar), LiveStream.TokenLoaded(t, req, token))
      modifies this
      ensures raised == if token.Some? then None else Some(AuthenticationRequired)
      ensures View(sidecar) == DoTokenLoaded(old(View(sidecar)), t, req, token)
    {
      ghost var s := DoTokenLoaded(View(sidecar), t, req, token);
      raised := None;
      if token.None? {
        tasks := tasks - {t};
        raised := Some(AuthenticationRequired);
      } else {
        var device := tasks[t].device;
        tasks := tasks[t := AwaitingStart(device, req)];
        inbox := inbox[req := PostSession(device, token.value)];
      }
      Record(s);
    }

    /** The statuses of SipBridgeClient.start: 409 is a matter of capacity, any other but 201
        makes the sidecar unavailable. */
    method StartReplied(t: Id, sidecar: SC.Bridge) returns (raised: Option<Error>)
      requires Enabled(View(sidecar), LiveStream.StartReplied(t))
      modifies this
      ensures raised == None <==> sidecar.replies[old(tasks)[t].req].Created?
      ensures raised == Some(StreamCapacityExceeded) <==> sidecar.replies[old(tasks)[t].req] == SC.DeviceBusy
      ensures raised in {None, Some(StreamCapacityExceeded), Some(UpstreamUnavailable)}
      ensures View(sidecar) == DoStartReplied(old(View(sidecar)), t)
    {
      ghost var s := DoStartReplied(View(sidecar), t);
      var reply := sidecar.replies[tasks[t].req];
      if reply.Created? {
        tasks := tasks[t := HoldingReply(tasks[t].device, reply.bridge)];
        raised := None;
      } else {
        tasks := tasks - {t};
        raised := Some(if reply == SC.DeviceBusy then StreamCapacityExceeded else UpstreamUnavailable);
      }
      Record(s);
    }

    method Bind(t: Id, sid: Id, ghost sidecar: SC.Bridge)
      requires Enabled(View(sidecar), LiveStream.Bind(t, sid))
      requires registry.sessions.Keys <= used
      modifies this, registry
      ensures View(sidecar) == DoBind(old(View(sidecar)), t, sid)
    {
      ghost var s := DoBind(View(sidecar), t, sid);
      var task := tasks[t];
      var ok := registry.Bind(sid, Session(task.bridge, task.device, false));
      tasks := tasks[t := AwaitingWhep(sid, task.bridge)];
      Record(s);
    }

    method WhepAccepted(t: Id, audio: bool, ghost sidecar: SC.Bridge)
      requires Enabled(View(sidecar), LiveStream.WhepAccepted(t, audio))
      modifies this, registry
      ensures View(sidecar) == DoWhepAccepted(old(View(sidecar)), t, audio)
    {
      ghost var s := DoWhepAccepted(View(sidecar), t, audio);
      var sid := tasks[t].sid;
      if sid in registry.sessions {
        registry.sessions := registry.sessions[sid := registry.sessions[sid].(hasAudio := audio)];
      }
      tasks := tasks - {t};
      Record(s);
    }

    method WhepFailed(t: Id, ghost sidecar: SC.Bridge)
      requires Enabled(View(sidecar), LiveStream.WhepFailed(t))
      modifies this, registry
      ensures View(sidecar) == DoWhepFailed(old(View(sidecar)), t)
    {
      ghost var s := DoWhepFailed(View(sidecar), t);
      var task := tasks[t];
      var gone := registry.Remove(task.sid);
      tasks := tasks[t := CleaningUp(task.bridge, Unsent)];
      Record(s);
    }

    method DeleteBegins(t: Id, sid: Id, ghost sidecar: SC.Bridge) returns (raised: Option<Error>)
      requires Enabled(View(sidecar), LiveStream.DeleteBegins(t, sid))
      modifies this
      ensures raised == if sid in registry.sessions then None else Some(StreamSessionNotFound)
      ensures View(sidecar) == DoDeleteBegins(old(View(sidecar)), t, sid)
    {
      ghost var s := DoDeleteBegins(View(sidecar), t, sid);
      var session := registry.Lookup(sid);
      if session.Some? {
        tasks := tasks[t := Deleting(sid, session.value.bridge, Unsent)];
      }
      raised := if session.Some? then None else Some(StreamSessionNotFound);
      Record(s);
    }

    method CloseBegins(t: Id, ghost sidecar: SC.Bridge) returns (ghost order: seq<Id>)
      requires t !in used
      modifies this, registry
      ensures Enabled(old(View(sidecar)), LiveStream.CloseBegins(t, order))
      ensures View(sidecar) == DoCloseBegins(old(View(sidecar)), t, order)
    {
      ghost var before := View(sidecar);
      var all, listed := registry.Clear();
      order := listed;
      ghost var s := DoCloseBegins(before, t, order);
      var bridges := seq(|all|, i requires 0 <= i < |all| => all[i].bridge);
      assert bridges == seq(|order|, i requires 0 <= i < |order| => before.sessions[order[i]].bridge);
      if bridges != [] {
        tasks := tasks[t := Closing(bridges, Unsent)];
      }
      Record(s);
    }

    method StopSent(t: Id, req: Id, ghost sidecar: SC.Bridge)
      requires Enabled(View(sidecar), LiveStream.StopSent(t, req))
      modifies this
      ensures View(sidecar) == DoStopSent(old(View(sidecar)), t, req)
    {
      ghost var s := DoStopSent(View(sidecar), t, req);
      var bridge := Target(tasks[t]);
      tasks := tasks[t := tasks[t].(stop := Sent(req))];
      inbox := inbox[req := DeleteSession(bridge)];
      Record(s);
    }

    method StopReplied(t: Id, sidecar: SC.Bridge)
      requires Enabled(View(sidecar), LiveStream.StopReplied(t))
      modifies this
      ensures View(sidecar) == DoStopReplied(old(View(sidecar)), t)
    {
      ghost var s := DoStopReplied(View(sidecar), t);
      var reply := sidecar.replies[tasks[t].stop.req];
      tasks := tasks[t := tasks[t].(stop := Stopped(reply == SC.NoContent))];
      Record(s);
    }

    method StopErred(t: Id, ghost sidecar: SC.Bridge)
      requires Enabled(View(sidecar), LiveStream.StopErred(t))
      modifies this
      ensures View(sidecar) == DoStopErred(old(View(sidecar)), t)
    {
      ghost var s := DoStopErred(View(sidecar), t);
      tasks := tasks[t := tasks[t].(stop := Stopped(false))];
      Record(s);
    }

    method StopFinished(t: Id, ghost sidecar: SC.Bridge)
      requires Enabled(View(sidecar), LiveStream.StopFinished(t))
      modifies this, registry
      ensures View(sidecar) == DoStopFinished(old(View(sidecar)), t)
    {
      ghost var s := DoStopFinished(View(sidecar), t);
      var task := tasks[t];
      if task.Closing? && task.bridges[1..] != [] {
        tasks := tasks[t := Closing(task.bridges[1..], Unsent)];
      } else {
        tasks := tasks - {t};
      }
      if task.Deleting? {
        var gone := registry.Remove(task.sid);
      }
      Record(s);
    }
  }
}
