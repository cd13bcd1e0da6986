/** What one create call does when nothing comes in between: a session with its entry, or,
    whatever goes wrong, nothing at all. */
module LiveStreamCreates {
  import opened Common
  import SC = Sidecar
  import opened LiveStream
  import opened LiveStreamOwnership
  import opened LiveStreamCalls

  /** The arguments of a create call and the ids drawn for it. */
  datatype Create = Create(t: Id, device: Device, token: string, req: Id, bridge: Id, sid: Id)

  /** The ids drawn on the way are new. */
  ghost predicate NewIds(s: State, c: Create) {
    && c.req !in s.used && c.sid !in s.used && c.bridge !in s.sidecar.issued
    && c.t != c.req && c.t != c.sid && c.req != c.sid
  }

  ghost predicate Fresh(s: State, c: Create) {
    NewIds(s, c) && c.t !in s.used
  }

  // ---- the stretches -----------------------------------------------------------------------

  ghost function Admitted(s: State, c: Create): State {
    SetTask(s, c.t, LoadingToken(c.device))
  }

  ghost function Posted(s: State, c: Create): State {
    s.(tasks := s.tasks[c.t := AwaitingStart(c.device, c.req)],
       inbox := s.inbox[c.req := PostSession(c.device, c.token)],
       callers := s.callers[c.req := c.t], used := s.used + {c.t, c.req})
  }

  ghost function Taken(s: State, c: Create): State {
    Posted(s, c).(
      inbox := s.inbox,
      sidecar := s.sidecar.(starting := s.sidecar.starting[c.req := SC.Start(c.bridge, c.device)],
                            issued := s.sidecar.issued + {c.bridge}))
  }

  ghost function Started(s: State, c: Create): State {
    Posted(s, c).(
      inbox := s.inbox, fate := s.fate[c.bridge := AwaitedBy(c.t)],
      sidecar := s.sidecar.(issued := s.sidecar.issued + {c.bridge},
                            sessions := s.sidecar.sessions[c.bridge := SC.Entry(c.device, SC.Active)],
                            replies := s.sidecar.replies[c.req := SC.Created(c.bridge)]))
  }

  ghost function Held(s: State, c: Create): State {
    Started(s, c).(tasks := s.tasks[c.t := HoldingReply(c.device, c.bridge)], fate := s.fate[c.bridge := HeldBy(c.t)])
  }

  ghost function Bound(s: State, c: Create): State {
    Started(s, c).(
      tasks := s.tasks[c.t := AwaitingWhep(c.sid, c.bridge)], fate := s.fate[c.bridge := InMap(c.sid)],
      sessions := s.sessions[c.sid := Session(c.bridge, c.device, false)], used := s.used + {c.t, c.req, c.sid})
  }

  lemma AdmittedFollows(s: State, c: Create)
    requires Fresh(s, c) && |s.sessions| < s.max
    ensures var l := CreateBegins(c.t, c.device); Enabled(s, l) && Next(s, l) == Admitted(s, c)
  {
  }

  lemma PostedFollows(s: State, c: Create)
    requires Fresh(s, c)
    ensures var l := TokenLoaded(c.t, c.req, Some(c.token));
            Enabled(Admitted(s, c), l) && Next(Admitted(s, c), l) == Posted(s, c)
  {
    assert s.tasks[c.t := LoadingToken(c.device)][c.t := AwaitingStart(c.device, c.req)]
        == s.tasks[c.t := AwaitingStart(c.device, c.req)];
  }

  ghost function Arrives(c: Create): Label {
    AtSidecar(SC.PostArrives(c.req, c.device, c.token, c.bridge))
  }

  lemma CanArrive(s: State, c: Create)
    requires KeysUsed(s) && NewIds(s, c)
    ensures Enabled(Posted(s, c), Arrives(c))
    ensures s.inbox[c.req := PostSession(c.device, c.token)] - {c.req} == s.inbox
  {
    TakenIsGone(s, c.req, PostSession(c.device, c.token));
  }

  lemma TakenFollows(s: State, c: Create)
    requires KeysUsed(s) && NewIds(s, c) && c.device != "" && c.token != "" && !SC.Busy(s.sidecar, c.device)
    ensures Enabled(Posted(s, c), Arrives(c)) && Next(Posted(s, c), Arrives(c)) == Taken(s, c)
  {
    CanArrive(s, c);
  }

  lemma NotStarting(s: State, c: Create)
    requires KeysUsed(s) && NewIds(s, c)
    ensures s.sidecar.starting[c.req := SC.Start(c.bridge, c.device)] - {c.req} == s.sidecar.starting
  {
  }

  lemma StartedFollows(s: State, c: Create)
    requires KeysUsed(s) && NewIds(s, c)
    ensures var l := AtSidecar(SC.FactoryStarts(c.req, SC.Active, false));
            Enabled(Taken(s, c), l) && Next(Taken(s, c), l) == Started(s, c)
  {
    assert StillAwaited(Taken(s, c), c.req);
    NotStarting(s, c);
  }

  lemma HeldFollows(s: State, c: Create)
    ensures Enabled(Started(s, c), StartReplied(c.t)) && Next(Started(s, c), StartReplied(c.t)) == Held(s, c)
  {
    assert s.tasks[c.t := AwaitingStart(c.device, c.req)][c.t := HoldingReply(c.device, c.bridge)]
        == s.tasks[c.t := HoldingReply(c.device, c.bridge)];
    assert s.fate[c.bridge := AwaitedBy(c.t)][c.bridge := HeldBy(c.t)] == s.fate[c.bridge := HeldBy(c.t)];
  }

  lemma BoundFollows(s: State, c: Create)
    requires NewIds(s, c)
    ensures Enabled(Held(s, c), Bind(c.t, c.sid)) && Next(Held(s, c), Bind(c.t, c.sid)) == Bound(s, c)
  {
    assert s.tasks[c.t := HoldingReply(c.device, c.bridge)][c.t := AwaitingWhep(c.sid, c.bridge)]
        == s.tasks[c.t := AwaitingWhep(c.sid, c.bridge)];
    assert s.fate[c.bridge := HeldBy(c.t)][c.bridge := InMap(c.sid)] == s.fate[c.bridge := InMap(c.sid)];
  }

  /** From the call to the bind. */
  ghost function BindLabels(c: Create): seq<Label> {
    [CreateBegins(c.t, c.device), TokenLoaded(c.t, c.req, Some(c.token)), Arrives(c),
     AtSidecar(SC.FactoryStarts(c.req, SC.Active, false))] + [StartReplied(c.t), Bind(c.t, c.sid)]
  }

  /** The sidecar would take the session. */
  ghost predicate Free(s: State, device: Device) {
    |s.sessions| < s.max && forall b | b in s.sidecar.sessions :: s.sidecar.sessions[b] != SC.Entry(device, SC.Active)
  }

  lemma BindLeads(s: State, c: Create)
    requires KeysUsed(s) && Fresh(s, c) && Free(s, c.device) && c.device != "" && c.token != ""
    ensures Leads(s, BindLabels(c), Bound(s, c))
  {
    AdmittedFollows(s, c);
    PostedFollows(s, c);
    TakenFollows(s, c);
    StartedFollows(s, c);
    HeldFollows(s, c);
    BoundFollows(s, c);
    var start := AtSidecar(SC.FactoryStarts(c.req, SC.Active, false));
    var v := Four(s, CreateBegins(c.t, c.device), TokenLoaded(c.t, c.req, Some(c.token)), Arrives(c), start);
    One(Held(s, c), Bind(c.t, c.sid));
    First(Started(s, c), StartReplied(c.t), [Bind(c.t, c.sid)], Bound(s, c));
    assert [StartReplied(c.t)] + [Bind(c.t, c.sid)] == [StartReplied(c.t), Bind(c.t, c.sid)];
    Then(s, [CreateBegins(c.t, c.device), TokenLoaded(c.t, c.req, Some(c.token)), Arrives(c), start], Started(s, c),
         [StartReplied(c.t), Bind(c.t, c.sid)], Bound(s, c));
  }

  // ---- it works ------------------------------------------------------------------------------

  lemma AcceptedIsOver(s: State, c: Create, audio: bool)
    requires KeysUsed(s) && Fresh(s, c)
    ensures Enabled(Bound(s, c), WhepAccepted(c.t, audio))
    ensures Clears(s, Next(Bound(s, c), WhepAccepted(c.t, audio)),
                   s.sessions[c.sid := Session(c.bridge, c.device, audio)],
                   s.sidecar.sessions[c.bridge := SC.Entry(c.device, SC.Active)])
  {
    var v := Bound(s, c);
    assert v.tasks - {c.t} == s.tasks;
    assert v.sessions[c.sid := Session(c.bridge, c.device, audio)]
        == s.sessions[c.sid := Session(c.bridge, c.device, audio)];
  }

  /** A create that nothing disturbs, below the limit and for a device that is free, ends with
      one session more in the map, for that device and with the audio flag of the answer, and
      one active entry more in the sidecar, under the bridge id of the session. */
  lemma CreateCall(max: int, before: seq<Label>, s: State, c: Create, audio: bool) returns (u: State)
    requires Leads(Init(max), before, s)
    requires Fresh(s, c) && Free(s, c.device) && c.device != "" && c.token != ""
    ensures Leads(s, BindLabels(c) + [WhepAccepted(c.t, audio)], u)
    ensures Clears(s, u, s.sessions[c.sid := Session(c.bridge, c.device, audio)],
                   s.sidecar.sessions[c.bridge := SC.Entry(c.device, SC.Active)])
  {
    RunKeepsInv(Init(max), before);
    BindLeads(s, c);
    AcceptedIsOver(s, c, audio);
    u := Next(Bound(s, c), WhepAccepted(c.t, audio));
    One(Bound(s, c), WhepAccepted(c.t, audio));
    Then(s, BindLabels(c), Bound(s, c), [WhepAccepted(c.t, audio)], u);
  }

  // ---- the WHEP exchange fails ------------------------------------------------------------------

  ghost function Failed(s: State, c: Create): State {
    Bound(s, c).(tasks := s.tasks[c.t := CleaningUp(c.bridge, Unsent)], fate := s.fate[c.bridge := StopPending(c.t)],
                 sessions := s.sessions)
  }

  /** The failure of the exchange, in any state in which the session stands in the map. */
  lemma WhepFailureGives(v: State, t: Id, sid: Id, bridge: Id)
    requires t in v.tasks && v.tasks[t] == AwaitingWhep(sid, bridge)
    requires bridge in v.fate && v.fate[bridge] == InMap(sid)
    ensures Enabled(v, WhepFailed(t))
    ensures Next(v, WhepFailed(t)) == v.(
              tasks := v.tasks[t := CleaningUp(bridge, Unsent)], sessions := v.sessions - {sid},
              fate := v.fate[bridge := StopPending(t)], used := v.used + {t})
  {
  }

  lemma FailedIs(s: State, c: Create)
    requires KeysUsed(s) && Fresh(s, c)
    ensures var v := Bound(s, c);
            Failed(s, c) == v.(
              tasks := v.tasks[c.t := CleaningUp(c.bridge, Unsent)], sessions := v.sessions - {c.sid},
              fate := v.fate[c.bridge := StopPending(c.t)], used := v.used + {c.t})
  {
    var v := Bound(s, c);
    assert v.sessions - {c.sid} == s.sessions;
    assert v.tasks[c.t := CleaningUp(c.bridge, Unsent)] == s.tasks[c.t := CleaningUp(c.bridge, Unsent)];
    assert v.fate[c.bridge := StopPending(c.t)] == s.fate[c.bridge := StopPending(c.t)];
  }

  lemma FailedFollows(s: State, c: Create)
    requires KeysUsed(s) && Fresh(s, c)
    ensures Enabled(Bound(s, c), WhepFailed(c.t)) && Next(Bound(s, c), WhepFailed(c.t)) == Failed(s, c)
  {
    WhepFailureGives(Bound(s, c), c.t, c.sid, c.bridge);
    FailedIs(s, c);
  }

  lemma CleanupLeaves(s: State, c: Create, r: Id)
    requires KeysUsed(s) && Fresh(s, c) && c.bridge !in s.sidecar.sessions
    ensures var v := AfterStop(Failed(s, c), c.t, r);
            && v.tasks - {c.t} == s.tasks && v.sessions == s.sessions && v.inbox == s.inbox && v.max == s.max
            && v.sidecar == s.sidecar.(issued := v.sidecar.issued, replies := v.sidecar.replies)
  {
    assert s.sidecar.sessions[c.bridge := SC.Entry(c.device, SC.Active)] - {c.bridge} == s.sidecar.sessions;
  }

  lemma CleanupGives(v: State, t: Id, bridge: Id)
    requires t in v.tasks && v.tasks[t] == CleaningUp(bridge, Stopped(true))
    ensures Enabled(v, StopFinished(t))
    ensures var u := Next(v, StopFinished(t));
            && u.tasks == v.tasks - {t} && u.sessions == v.sessions && u.inbox == v.inbox && u.max == v.max
            && u.sidecar == v.sidecar
  {
  }

  lemma CleanupIsOver(s: State, c: Create, r: Id)
    requires KeysUsed(s) && Fresh(s, c) && c.bridge !in s.sidecar.sessions
    ensures var v := AfterStop(Failed(s, c), c.t, r);
            && Enabled(v, StopFinished(c.t))
            && Clears(s, Next(v, StopFinished(c.t)), s.sessions, s.sidecar.sessions)
  {
    CleanupLeaves(s, c, r);
    CleanupGives(AfterStop(Failed(s, c), c.t, r), c.t, c.bridge);
  }

  ghost function CleanupLabels(s: State, c: Create, r: Id, threw: bool): seq<Label> {
    [WhepFailed(c.t)] + (StopLabels(Failed(s, c), c.t, r, c.bridge, threw) + [StopFinished(c.t)])
  }

  lemma FailedUsed(s: State, c: Create)
    requires KeysUsed(s) && Fresh(s, c)
    ensures KeysUsed(Failed(s, c))
  {
  }

  lemma CleanupLeads(s: State, c: Create, r: Id, threw: bool) returns (u: State)
    requires KeysUsed(s) && Fresh(s, c) && c.bridge !in s.sidecar.sessions
    requires r !in s.used && r !in {c.t, c.req, c.sid}
    ensures Leads(Bound(s, c), CleanupLabels(s, c, r, threw), u)
    ensures Clears(s, u, s.sessions, s.sidecar.sessions)
  {
    var v := Failed(s, c);
    var w := AfterStop(v, c.t, r);
    FailedFollows(s, c);
    FailedUsed(s, c);
    StopLeads(v, c.t, r, threw);
    CleanupIsOver(s, c, r);
    u := Next(w, StopFinished(c.t));
    One(w, StopFinished(c.t));
    Then(v, StopLabels(v, c.t, r, c.bridge, threw), w, [StopFinished(c.t)], u);
    First(Bound(s, c), WhepFailed(c.t), StopLabels(v, c.t, r, c.bridge, threw) + [StopFinished(c.t)], u);
  }

  /** A create whose WHEP exchange fails undoes itself: map and sidecar are as before. */
  lemma CreateUndone(max: int, before: seq<Label>, s: State, c: Create, r: Id, threw: bool) returns (u: State)
    requires Leads(Init(max), before, s)
    requires Fresh(s, c) && Free(s, c.device) && c.device != "" && c.token != ""
    requires r !in s.used && r !in {c.t, c.req, c.sid}
    ensures Leads(s, BindLabels(c) + CleanupLabels(s, c, r, threw), u)
    ensures Clears(s, u, s.sessions, s.sidecar.sessions)
  {
    RunKeepsInv(Init(max), before);
    BindLeads(s, c);
    u := CleanupLeads(s, c, r, threw);
    Then(s, BindLabels(c), Bound(s, c), CleanupLabels(s, c, r, threw), u);
  }

  // ---- it is refused ------------------------------------------------------------------------------

  /** A create that finds the map full does nothing. */
  lemma CreateWhenFull(s: State, t: Id, device: Device)
    requires t !in s.used && |s.sessions| >= s.max
    ensures Enabled(s, CreateBegins(t, device)) && Next(s, CreateBegins(t, device)) == s.(used := s.used + {t})
  {
  }

  /** A create without a stored token sends nothing. */
  lemma CreateWithoutToken(s: State, t: Id, device: Device, req: Id)
    requires KeysUsed(s) && t !in s.used && req !in s.used && t != req && |s.sessions| < s.max
    ensures Leads(s, [CreateBegins(t, device), TokenLoaded(t, req, None)], s.(used := s.used + {t}))
  {
    var v := SetTask(s, t, LoadingToken(device));
    assert v.tasks - {t} == s.tasks;
    One(v, TokenLoaded(t, req, None));
    First(s, CreateBegins(t, device), [TokenLoaded(t, req, None)], s.(used := s.used + {t}));
    assert [CreateBegins(t, device)] + [TokenLoaded(t, req, None)]
        == [CreateBegins(t, device), TokenLoaded(t, req, None)];
  }

  lemma RefusalFollows(s: State, c: Create)
    requires KeysUsed(s) && Fresh(s, c) && (c.device == "" || c.token == "" || SC.Busy(s.sidecar, c.device))
    ensures Enabled(Posted(s, c), Arrives(c))
    ensures var v := Next(Posted(s, c), Arrives(c));
            && Enabled(v, StartReplied(c.t))
            && Clears(s, Next(v, StartReplied(c.t)), s.sessions, s.sidecar.sessions)
  {
    CanArrive(s, c);
    assert Posted(s, c).tasks - {c.t} == s.tasks;
  }

  /** A create that the sidecar refuses, for want of a device or a token or because the device
      has an active session, leaves map and sidecar as they were. */
  lemma CreateRefused(max: int, before: seq<Label>, s: State, c: Create) returns (u: State)
    requires Leads(Init(max), before, s) && Fresh(s, c) && |s.sessions| < s.max
    requires c.device == "" || c.token == "" || !Free(s, c.device)
    ensures Leads(s, [CreateBegins(c.t, c.device), TokenLoaded(c.t, c.req, Some(c.token)), Arrives(c),
                      StartReplied(c.t)], u)
    ensures Clears(s, u, s.sessions, s.sidecar.sessions)
  {
    RunKeepsInv(Init(max), before);
    AdmittedFollows(s, c);
    PostedFollows(s, c);
    RefusalFollows(s, c);
    u := Four(s, CreateBegins(c.t, c.device), TokenLoaded(c.t, c.req, Some(c.token)), Arrives(c), StartReplied(c.t));
  }

  lemma FailureFollows(s: State, c: Create)
    requires KeysUsed(s) && Fresh(s, c)
    ensures var l := AtSidecar(SC.FactoryFails(c.req));
            && Enabled(Taken(s, c), l) && Enabled(Next(Taken(s, c), l), StartReplied(c.t))
            && Clears(s, Next(Next(Taken(s, c), l), StartReplied(c.t)), s.sessions, s.sidecar.sessions)
  {
    NotStarting(s, c);
    assert Posted(s, c).tasks - {c.t} == s.tasks;
  }

  /** So does one for which the session factory fails. */
  lemma CreateFails(max: int, before: seq<Label>, s: State, c: Create) returns (u: State)
    requires Leads(Init(max), before, s)
    requires Fresh(s, c) && Free(s, c.device) && c.device != "" && c.token != ""
    ensures Leads(s, [CreateBegins(c.t, c.device), TokenLoaded(c.t, c.req, Some(c.token)), Arrives(c),
                      AtSidecar(SC.FactoryFails(c.req))] + [StartReplied(c.t)], u)
    ensures Clears(s, u, s.sessions, s.sidecar.sessions)
  {
    RunKeepsInv(Init(max), before);
    AdmittedFollows(s, c);
    PostedFollows(s, c);
    TakenFollows(s, c);
    FailureFollows(s, c);
    var fails := AtSidecar(SC.FactoryFails(c.req));
    var v := Four(s, CreateBegins(c.t, c.device), TokenLoaded(c.t, c.req, Some(c.token)), Arrives(c), fails);
    u := Next(v, StartReplied(c.t));
    One(v, StartReplied(c.t));
    Then(s, [CreateBegins(c.t, c.device), TokenLoaded(c.t, c.req, Some(c.token)), Arrives(c), fails], v,
         [StartReplied(c.t)], u);
  }
}
