/** What must become of the requests, the terminations and the delayed deletes of a run of
    the sidecar, told by its events. */
module SidecarHistory {
  import opened Sidecar

  // ---- delayed deletes ----------------------------------------------------------------

  /** A drawn id whose start is over. */
  ghost predicate Drawn(b: Bridge, id: Id) {
    id in b.issued && forall r | r in b.starting :: b.starting[r].bridge != id
  }

  /** Delayed deletes are scheduled, and stops are under way, for such ids only. */
  ghost predicate TimersOk(b: Bridge) {
    (forall id | id in b.timers :: Drawn(b, id)) && (forall r | r in b.stopping :: Drawn(b, b.stopping[r]))
  }

  lemma PostKeepsTimers(b: Bridge, req: Id, device: Device, token: string, bridge: Id)
    requires TimersOk(b) && Enabled(b, PostArrives(req, device, token, bridge))
    ensures TimersOk(Step(b, PostArrives(req, device, token, bridge)))
  {
  }

  lemma StartKeepsTimers(b: Bridge, req: Id, state: EntryState, fired: bool)
    requires Inv(b) && TimersOk(b) && Enabled(b, FactoryStarts(req, state, fired))
    ensures TimersOk(Step(b, FactoryStarts(req, state, fired)))
  {
    var c := Step(b, FactoryStarts(req, state, fired));
    forall id | id in c.timers ensures Drawn(c, id) {
      assert id in b.timers || id == b.starting[req].bridge;
      if id in b.timers {
        assert Drawn(b, id);
      }
    }
    forall r | r in c.stopping ensures Drawn(c, c.stopping[r]) {
      assert Drawn(b, b.stopping[r]);
    }
  }

  lemma StepKeepsTimers(b: Bridge, e: Event)
    requires Inv(b) && TimersOk(b) && Enabled(b, e)
    ensures TimersOk(Step(b, e))
  {
    match e
    case PostArrives(req, device, token, bridge) => PostKeepsTimers(b, req, device, token, bridge);
    case FactoryStarts(req, state, fired) => StartKeepsTimers(b, req, state, fired);
    case _ =>
  }

  /** Everything that every run keeps. */
  ghost predicate Ok(b: Bridge) {
    Inv(b) && TimersOk(b)
  }

  lemma {:induction false} RunKeepsOk(b: Bridge, es: seq<Event>)
    requires Ok(b) && Run(b, es)
    ensures Ok(Exec(b, es))
    decreases |es|
  {
    if es != [] {
      StepKeepsInv(b, es[0]);
      StepKeepsTimers(b, es[0]);
      RunKeepsOk(Step(b, es[0]), es[1..]);
    }
  }

  lemma FiredIsGone(b: Bridge, id: Id)
    requires Ok(b) && Enabled(b, TimerFires(id))
    ensures Gone(Step(b, TimerFires(id)), id)
  {
  }

  lemma {:induction false} GoneFrom(b: Bridge, es: seq<Event>, id: Id)
    requires Ok(b) && Run(b, es) && TimerFires(id) in es
    ensures Gone(Exec(b, es), id)
    decreases |es|
  {
    var c := Step(b, es[0]);
    StepKeepsInv(b, es[0]);
    StepKeepsTimers(b, es[0]);
    if es[0] == TimerFires(id) {
      FiredIsGone(b, id);
      GoneStaysGone(c, es[1..], id);
    } else {
      GoneFrom(c, es[1..], id);
    }
  }

  /** On every run: once its delayed delete has fired, a session is gone for good. */
  lemma DelayedDeleteRemoves(es: seq<Event>, id: Id)
    requires Run(EMPTY, es) && TimerFires(id) in es
    ensures Gone(Exec(EMPTY, es), id)
  {
    GoneFrom(EMPTY, es, id);
  }

  // ---- terminations ---------------------------------------------------------------------

  /** Ring has ended the session id: by a termination later on, or one that fired while
      the start was still being handled. */
  ghost predicate Ended(b: Bridge, es: seq<Event>, id: Id)
    requires Run(b, es)
    decreases |es|
  {
    es != [] && (EndsIt(b, es[0], id) || Ended(Step(b, es[0]), es[1..], id))
  }

  predicate EndsIt(b: Bridge, e: Event, id: Id) {
    e == Terminates(id) || (e.FactoryStarts? && e.fired && e.req in b.starting && b.starting[e.req].bridge == id)
  }

  /** An entry of the session is terminated and will be deleted. */
  ghost predicate Winding(b: Bridge, id: Id) {
    && Drawn(b, id)
    && (id in b.sessions ==> b.sessions[id].state == Terminated && id in b.timers)
  }

  lemma EndWinds(b: Bridge, e: Event, id: Id)
    requires Ok(b) && Enabled(b, e) && EndsIt(b, e, id)
    ensures Winding(Step(b, e), id)
  {
    if e.FactoryStarts? {
      var c := Step(b, e);
      assert c.timers == b.timers + multiset{id};
    }
  }

  lemma StartWinds(b: Bridge, req: Id, state: EntryState, fired: bool, id: Id)
    requires Ok(b) && Winding(b, id) && Enabled(b, FactoryStarts(req, state, fired))
    ensures Winding(Step(b, FactoryStarts(req, state, fired)), id)
  {
    assert b.starting[req].bridge != id;
  }

  lemma TimerWinds(b: Bridge, fires: Id, id: Id)
    requires Ok(b) && Winding(b, id) && Enabled(b, TimerFires(fires))
    ensures Winding(Step(b, TimerFires(fires)), id)
  {
  }

  lemma StepWinds(b: Bridge, e: Event, id: Id)
    requires Ok(b) && Winding(b, id) && Enabled(b, e)
    ensures Winding(Step(b, e), id)
  {
    match e
    case FactoryStarts(req, state, fired) => StartWinds(b, req, state, fired, id);
    case TimerFires(fires) => TimerWinds(b, fires, id);
    case PostArrives(_, _, _, _) => assert Step(b, e).sessions == b.sessions;
    case _ =>
  }

  lemma {:induction false} StaysWinding(b: Bridge, es: seq<Event>, id: Id)
    requires Ok(b) && Winding(b, id) && Run(b, es)
    ensures Winding(Exec(b, es), id)
    decreases |es|
  {
    if es != [] {
      StepKeepsInv(b, es[0]);
      StepKeepsTimers(b, es[0]);
      StepWinds(b, es[0], id);
      StaysWinding(Step(b, es[0]), es[1..], id);
    }
  }

  lemma {:induction false} EndedWinds(b: Bridge, es: seq<Event>, id: Id)
    requires Ok(b) && Run(b, es) && Ended(b, es, id)
    ensures Winding(Exec(b, es), id)
    decreases |es|
  {
    var c := Step(b, es[0]);
    StepKeepsInv(b, es[0]);
    StepKeepsTimers(b, es[0]);
    if EndsIt(b, es[0], id) {
      EndWinds(b, es[0], id);
      StaysWinding(c, es[1..], id);
    } else {
      EndedWinds(c, es[1..], id);
    }
  }

  /** On every run: a session that Ring has ended is not active, and as long as it has an
      entry its delayed delete is still to come. */
  lemma EndedSessionIsDeleted(es: seq<Event>, id: Id)
    requires Run(EMPTY, es) && Ended(EMPTY, es, id)
    ensures var b := Exec(EMPTY, es);
            id in b.sessions ==> b.sessions[id].state == Terminated && Enabled(b, TimerFires(id))
  {
    EndedWinds(EMPTY, es, id);
  }

  // ---- what a POST is answered with -------------------------------------------------------

  /** The POST req is inside the factory. */
  ghost predicate Waiting(b: Bridge, req: Id, bridge: Id, device: Device) {
    req in b.starting && b.starting[req] == Start(bridge, device)
  }

  predicate Answered(b: Bridge, req: Id, reply: Reply) {
    req in b.replies && b.replies[req] == reply
  }

  /** An answer stands, and the request is over. */
  lemma AnswerStands(b: Bridge, e: Event, req: Id, reply: Reply)
    requires Ok(b) && Enabled(b, e) && Answered(b, req, reply)
    ensures Answered(Step(b, e), req, reply)
    ensures e != FactoryFails(req) && !(e.FactoryStarts? && e.req == req) && e != StopReturns(req)
    ensures !(e.PostArrives? && e.req == req) && !(e.DeleteArrives? && e.req == req)
  {
    assert req !in b.starting && req !in b.stopping;
  }

  predicate StartsIn(es: seq<Event>, req: Id) {
    exists i :: 0 <= i < |es| && es[i].FactoryStarts? && es[i].req == req
  }

  lemma StartsInRest(es: seq<Event>, req: Id)
    requires es != []
    ensures StartsIn(es, req) <==> (es[0].FactoryStarts? && es[0].req == req) || StartsIn(es[1..], req)
  {
    if i :| 0 <= i < |es| && es[i].FactoryStarts? && es[i].req == req {
      assert i > 0 ==> es[1..][i - 1] == es[i];
    }
  }

  lemma {:induction false} AnswerIsFinal(b: Bridge, es: seq<Event>, req: Id, reply: Reply)
    requires Ok(b) && Run(b, es) && Answered(b, req, reply)
    ensures Answered(Exec(b, es), req, reply)
    ensures FactoryFails(req) !in es && !StartsIn(es, req) && StopReturns(req) !in es
    decreases |es|
  {
    if es != [] {
      AnswerStands(b, es[0], req, reply);
      StepKeepsInv(b, es[0]);
      StepKeepsTimers(b, es[0]);
      AnswerIsFinal(Step(b, es[0]), es[1..], req, reply);
      StartsInRest(es, req);
    }
  }

  lemma WaitingStep(b: Bridge, e: Event, req: Id, bridge: Id, device: Device)
    requires Ok(b) && Enabled(b, e) && Waiting(b, req, bridge, device)
    ensures var c := Step(b, e);
            if e == FactoryFails(req) then Answered(c, req, SipFailed)
            else if e.FactoryStarts? && e.req == req then Answered(c, req, Created(bridge))
            else Waiting(c, req, bridge, device)
  {
  }

  /** A start in flight is answered with 201 and its id if the factory succeeds, with 502
      if it fails, and not before that. */
  lemma {:induction false} StartAnswered(b: Bridge, es: seq<Event>, req: Id, bridge: Id, device: Device)
    requires Ok(b) && Run(b, es) && Waiting(b, req, bridge, device)
    ensures var c := Exec(b, es);
            && (StartsIn(es, req) <==> Answered(c, req, Created(bridge)))
            && (FactoryFails(req) in es <==> Answered(c, req, SipFailed))
            && (req !in c.replies <==> Waiting(c, req, bridge, device))
            && (req in c.replies ==> c.replies[req] in {Created(bridge), SipFailed})
    decreases |es|
  {
    RunKeepsOk(b, es);
    if es == [] {
      assert req !in b.replies;
    } else {
      var e, c := es[0], Step(b, es[0]);
      WaitingStep(b, e, req, bridge, device);
      StepKeepsInv(b, e);
      StepKeepsTimers(b, e);
      StartsInRest(es, req);
      assert es == [e] + es[1..];
      if e == FactoryFails(req) {
        AnswerIsFinal(c, es[1..], req, SipFailed);
      } else if e.FactoryStarts? && e.req == req {
        AnswerIsFinal(c, es[1..], req, Created(bridge));
      } else {
        StartAnswered(c, es[1..], req, bridge, device);
      }
    }
  }

  /** What a POST is answered with, on every run, wherever it arrives: 400 if the device or
      the token is missing, else 409 if the device has an active session at that moment,
      else 201 with the drawn id once the factory succeeds, or 502 once it fails. */
  lemma PostAnswer(before: seq<Event>, es: seq<Event>, req: Id, device: Device, token: string, bridge: Id)
    requires Run(EMPTY, before) && es != [] && es[0] == PostArrives(req, device, token, bridge)
    requires Run(Exec(EMPTY, before), es)
    ensures var b, c := Exec(EMPTY, before), Exec(Exec(EMPTY, before), es);
            var invalid := device == "" || token == "";
            var busy := exists id :: id in b.sessions && b.sessions[id] == Entry(device, Active);
            && (Answered(c, req, BadRequest) <==> invalid)
            && (Answered(c, req, DeviceBusy) <==> !invalid && busy)
            && (Answered(c, req, Created(bridge)) <==> !invalid && !busy && StartsIn(es[1..], req))
            && (Answered(c, req, SipFailed) <==> !invalid && !busy && FactoryFails(req) in es[1..])
            && (req in c.replies ==> c.replies[req] in {BadRequest, DeviceBusy, Created(bridge), SipFailed})
  {
    RunKeepsOk(EMPTY, before);
    var b := Exec(EMPTY, before);
    var c := Step(b, es[0]);
    StepKeepsInv(b, es[0]);
    StepKeepsTimers(b, es[0]);
    if device == "" || token == "" {
      AnswerIsFinal(c, es[1..], req, BadRequest);
    } else if Busy(b, device) {
      AnswerIsFinal(c, es[1..], req, DeviceBusy);
    } else {
      StartAnswered(c, es[1..], req, bridge, device);
    }
  }

  // ---- what a POST leads to ------------------------------------------------------------------

  /** Neither its delayed delete nor a DELETE of it has happened. */
  predicate LeftAlone(e: Event, id: Id) {
    e != TimerFires(id) && !(e.DeleteArrives? && e.id == id)
  }

  /** The entry id is there, for the device, and no DELETE of it is under way. */
  ghost predicate Stands(b: Bridge, id: Id, device: Device) {
    && id in b.sessions && b.sessions[id].device == device
    && forall r | r in b.stopping :: b.stopping[r] != id
  }

  lemma StandsStep(b: Bridge, e: Event, id: Id, device: Device)
    requires Ok(b) && Enabled(b, e) && Stands(b, id, device) && LeftAlone(e, id)
    ensures Stands(Step(b, e), id, device)
  {
    EntryLife(b, e, id);
  }

  lemma {:induction false} StaysStanding(b: Bridge, es: seq<Event>, id: Id, device: Device)
    requires Ok(b) && Run(b, es) && Stands(b, id, device) && forall e | e in es :: LeftAlone(e, id)
    ensures Stands(Exec(b, es), id, device)
    decreases |es|
  {
    if es != [] {
      StandsStep(b, es[0], id, device);
      StepKeepsInv(b, es[0]);
      StepKeepsTimers(b, es[0]);
      StaysStanding(Step(b, es[0]), es[1..], id, device);
    }
  }

  lemma StartStands(b: Bridge, req: Id, state: EntryState, fired: bool)
    requires Ok(b) && Enabled(b, FactoryStarts(req, state, fired))
    ensures var s := b.starting[req]; Stands(Step(b, FactoryStarts(req, state, fired)), s.bridge, s.device)
  {
    forall r | r in b.stopping ensures b.stopping[r] != b.starting[req].bridge {
      assert Drawn(b, b.stopping[r]);
    }
  }

  /** What stands when the factory succeeds: an entry of the device of the POST, active
      unless the session ended at once; it stays until its delayed delete or a DELETE. */
  lemma StartedEntry(before: seq<Event>, es: seq<Event>, req: Id, state: EntryState, fired: bool)
    requires Run(EMPTY, before) && es != [] && es[0] == FactoryStarts(req, state, fired)
    requires Run(Exec(EMPTY, before), es)
    ensures var b := Exec(EMPTY, before);
            var s := b.starting[req];
            && Step(b, es[0]).sessions[s.bridge] == Entry(s.device, if fired then Terminated else state)
            && ((forall e | e in es :: LeftAlone(e, s.bridge)) ==>
                  s.bridge in Exec(b, es).sessions && Exec(b, es).sessions[s.bridge].device == s.device)
  {
    RunKeepsOk(EMPTY, before);
    var b := Exec(EMPTY, before);
    StartStands(b, req, state, fired);
    StepKeepsInv(b, es[0]);
    StepKeepsTimers(b, es[0]);
    if forall e | e in es :: LeftAlone(e, b.starting[req].bridge) {
      StaysStanding(Step(b, es[0]), es[1..], b.starting[req].bridge, b.starting[req].device);
    }
  }

  /** A POST for the device drew the id. */
  predicate Posts(e: Event, id: Id, device: Device) {
    e.PostArrives? && e.bridge == id && e.device == device && device != "" && e.token != ""
  }

  predicate PostedIn(es: seq<Event>, id: Id, device: Device) {
    exists i :: 0 <= i < |es| && Posts(es[i], id, device)
  }

  /** The id belongs to the device, as an entry or as a start in flight. */
  ghost predicate Belongs(b: Bridge, id: Id, device: Device) {
    || (id in b.sessions && b.sessions[id].device == device)
    || (exists r :: Waiting(b, r, id, device))
  }

  lemma StepBelongs(b: Bridge, e: Event, id: Id, device: Device)
    requires Ok(b) && Enabled(b, e) && Belongs(Step(b, e), id, device)
    ensures Belongs(b, id, device) || Posts(e, id, device)
  {
    var c := Step(b, e);
    EntryLife(b, e, id);
    if id in c.sessions && c.sessions[id].device == device {
      if id !in b.sessions {
        assert Waiting(b, e.req, id, device);
      }
    } else {
      var r :| Waiting(c, r, id, device);
      assert r in b.starting ==> Waiting(b, r, id, device);
    }
  }

  lemma {:induction false} RunBelongs(b: Bridge, es: seq<Event>, id: Id, device: Device)
    requires Ok(b) && Run(b, es) && Belongs(Exec(b, es), id, device)
    ensures Belongs(b, id, device) || PostedIn(es, id, device)
    decreases |es|
  {
    if es != [] {
      var c := Step(b, es[0]);
      StepKeepsInv(b, es[0]);
      StepKeepsTimers(b, es[0]);
      RunBelongs(c, es[1..], id, device);
      if Belongs(c, id, device) {
        StepBelongs(b, es[0], id, device);
      } else {
        var i :| 0 <= i < |es[1..]| && Posts(es[1..][i], id, device);
        assert Posts(es[i + 1], id, device);
      }
    }
  }

  /** On every run: every entry was drawn by a POST for its own device. */
  lemma EntryWasPosted(es: seq<Event>, id: Id)
    requires Run(EMPTY, es) && id in Exec(EMPTY, es).sessions
    ensures PostedIn(es, id, Exec(EMPTY, es).sessions[id].device)
  {
    RunBelongs(EMPTY, es, id, Exec(EMPTY, es).sessions[id].device);
  }

  // ---- what a DELETE is answered with -----------------------------------------------------------

  ghost predicate Stopping(b: Bridge, req: Id, id: Id) {
    req in b.stopping && b.stopping[req] == id
  }

  lemma StoppingStep(b: Bridge, e: Event, req: Id, id: Id)
    requires Ok(b) && Enabled(b, e) && Stopping(b, req, id)
    ensures var c := Step(b, e);
            if e == StopReturns(req) then Answered(c, req, NoContent) && Gone(c, id)
            else Stopping(c, req, id) && req !in c.replies
  {
    assert Drawn(b, id);
  }

  lemma {:induction false} StopAnswered(b: Bridge, es: seq<Event>, req: Id, id: Id)
    requires Ok(b) && Run(b, es) && Stopping(b, req, id)
    ensures var c := Exec(b, es);
            if StopReturns(req) in es then Answered(c, req, NoContent) && Gone(c, id)
            else Stopping(c, req, id) && req !in c.replies
    decreases |es|
  {
    if es == [] {
      assert req !in b.replies;
    } else {
      var c := Step(b, es[0]);
      StoppingStep(b, es[0], req, id);
      StepKeepsInv(b, es[0]);
      StepKeepsTimers(b, es[0]);
      assert es == [es[0]] + es[1..];
      if es[0] == StopReturns(req) {
        AnswerIsFinal(c, es[1..], req, NoContent);
        GoneStaysGone(c, es[1..], id);
      } else {
        StopAnswered(c, es[1..], req, id);
      }
    }
  }

  /** What a DELETE is answered with, on every run, wherever it arrives: 204 at once for an
      id without entry, else 204 when its stop has returned, and then the entry is gone for
      good; and the entry is not active any more from the moment the stop has begun, unless
      session.stop throws. */
  lemma DeleteAnswer(before: seq<Event>, es: seq<Event>, req: Id, id: Id, threw: bool)
    requires Run(EMPTY, before) && es != [] && es[0] == DeleteArrives(req, id, threw)
    requires Run(Exec(EMPTY, before), es)
    ensures var b, c := Exec(EMPTY, before), Exec(Exec(EMPTY, before), es);
            && (Answered(c, req, NoContent) <==> id !in b.sessions || StopReturns(req) in es[1..])
            && (req in c.replies ==> c.replies[req] == NoContent)
            && (id in b.sessions && Answered(c, req, NoContent) ==> Gone(c, id))
            && (id in b.sessions && !threw && id in c.sessions ==> c.sessions[id].state == Terminated)
            && (threw ==> Step(b, es[0]).sessions == b.sessions)
  {
    RunKeepsOk(EMPTY, before);
    var b := Exec(EMPTY, before);
    var c := Step(b, es[0]);
    StepKeepsInv(b, es[0]);
    StepKeepsTimers(b, es[0]);
    if id in b.sessions {
      StopAnswered(c, es[1..], req, id);
      if !threw && id in Exec(c, es[1..]).sessions {
        EntryHistory(c, es[1..], id);
      }
    } else {
      AnswerIsFinal(c, es[1..], req, NoContent);
    }
  }
}
