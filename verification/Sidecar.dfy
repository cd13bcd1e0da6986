/** The session bookkeeping of the Node sidecar (ring-sip-bridge/index.js), as a
    state machine over its events.  A handler runs without interruption up to each
    `await`, so one event is one stretch of handler code between two awaits. */
module Sidecar {

  type Id = nat
  type Device = string

  datatype EntryState = Active | Terminated

  datatype Entry = Entry(device: Device, state: EntryState)

  /** A POST handler that passed the busy check and awaits the session factory. */
  datatype Start = Start(bridge: Id, device: Device)

  datatype Reply = Created(bridge: Id) | BadRequest | DeviceBusy | SipFailed | NoContent

  datatype Bridge = Bridge(
    sessions: map<Id, Entry>,   // the `sessions` Map
    starting: map<Id, Start>,   // POST handlers inside factory.start, by request
    stopping: map<Id, Id>,      // DELETE handlers inside session.stop, by request
    timers: multiset<Id>,       // delayed deletes not yet fired
    replies: map<Id, Reply>,    // responses sent, by request
    issued: set<Id>)            // every session id drawn so far

  const EMPTY := Bridge(map[], map[], map[], multiset{}, map[], {})

  datatype Event =
    | PostArrives(req: Id, device: Device, token: string, bridge: Id)
    | FactoryFails(req: Id)
    | FactoryStarts(req: Id, state: EntryState, fired: bool)
    | DeleteArrives(req: Id, id: Id, threw: bool)
    | StopReturns(req: Id)
    | Terminates(id: Id)
    | TimerFires(id: Id)

  ghost predicate Busy(b: Bridge, device: Device) {
    exists id :: id in b.sessions && b.sessions[id] == Entry(device, Active)
  }

  predicate FreshRequest(b: Bridge, req: Id) {
    req !in b.starting && req !in b.stopping && req !in b.replies
  }

  predicate Enabled(b: Bridge, e: Event) {
    match e
    case PostArrives(req, _, _, bridge) => FreshRequest(b, req) && bridge !in b.issued
    case FactoryFails(req) => req in b.starting
    case FactoryStarts(req, _, _) => req in b.starting
    case DeleteArrives(req, _, _) => FreshRequest(b, req)
    case StopReturns(req) => req in b.stopping
    case Terminates(id) => id in b.issued && forall req | req in b.starting :: b.starting[req].bridge != id
    case TimerFires(id) => id in b.timers
  }

  function Answer(b: Bridge, req: Id, reply: Reply): Bridge {
    b.(replies := b.replies[req := reply])
  }

  function SetTerminated(sessions: map<Id, Entry>, id: Id): map<Id, Entry> {
    if id in sessions then sessions[id := sessions[id].(state := Terminated)] else sessions
  }

  /** What one event does.  The busy check, the id draw and the entry into
      factory.start form one uninterrupted stretch. */
  ghost function Step(b: Bridge, e: Event): Bridge
    requires Enabled(b, e)
  {
    match e
    case PostArrives(req, device, token, bridge) =>
      if device == "" || token == "" then Answer(b, req, BadRequest)
      else if Busy(b, device) then Answer(b, req, DeviceBusy)
      else b.(starting := b.starting[req := Start(bridge, device)], issued := b.issued + {bridge})
    case FactoryFails(req) =>
      Answer(b.(starting := b.starting - {req}), req, SipFailed)
    case FactoryStarts(req, state, fired) =>
      var s := b.starting[req];
      Answer(b.(starting := b.starting - {req},
                sessions := b.sessions[s.bridge := Entry(s.device, if fired then Terminated else state)],
                timers := if fired then b.timers + multiset{s.bridge} else b.timers),
             req, Created(s.bridge))
    case DeleteArrives(req, id, threw) =>
      if id in b.sessions then
        b.(stopping := b.stopping[req := id],
           sessions := if threw then b.sessions else SetTerminated(b.sessions, id))
      else Answer(b, req, NoContent)
    case StopReturns(req) =>
      Answer(b.(stopping := b.stopping - {req}, sessions := b.sessions - {b.stopping[req]}), req, NoContent)
    case Terminates(id) =>
      b.(sessions := SetTerminated(b.sessions, id), timers := b.timers + multiset{id})
    case TimerFires(id) =>
      b.(sessions := b.sessions - {id}, timers := b.timers - multiset{id})
  }

  ghost predicate Run(b: Bridge, es: seq<Event>)
    decreases |es|
  {
    es == [] || (Enabled(b, es[0]) && Run(Step(b, es[0]), es[1..]))
  }

  ghost function Exec(b: Bridge, es: seq<Event>): Bridge
    requires Run(b, es)
    decreases |es|
  {
    if es == [] then b else Exec(Step(b, es[0]), es[1..])
  }

  /** A request is at one stage only, and drawn ids are used once: a start in flight
      has an id no entry has. */
  ghost predicate Inv(b: Bridge) {
    && b.sessions.Keys <= b.issued
    && b.starting.Keys !! b.stopping.Keys !! b.replies.Keys
    && (forall r | r in b.starting :: b.starting[r].bridge in b.issued && b.starting[r].bridge !in b.sessions)
    && (forall r, q | r in b.starting && q in b.starting && r != q :: b.starting[r].bridge != b.starting[q].bridge)
  }

  lemma PostKeepsInv(b: Bridge, e: Event)
    requires Inv(b) && Enabled(b, e) && e.PostArrives?
    ensures Inv(Step(b, e))
  {}

  lemma FactoryKeepsInv(b: Bridge, e: Event)
    requires Inv(b) && Enabled(b, e) && (e.FactoryFails? || e.FactoryStarts?)
    ensures Inv(Step(b, e))
  {
    assert b.starting[e.req].bridge in b.issued;
  }

  lemma DeleteKeepsInv(b: Bridge, e: Event)
    requires Inv(b) && Enabled(b, e) && (e.DeleteArrives? || e.StopReturns?)
    ensures Inv(Step(b, e))
  {}

  lemma StepKeepsInv(b: Bridge, e: Event)
    requires Inv(b) && Enabled(b, e)
    ensures Inv(Step(b, e))
  {
    match e
    case PostArrives(_, _, _, _) => PostKeepsInv(b, e);
    case FactoryFails(_) => FactoryKeepsInv(b, e);
    case FactoryStarts(_, _, _) => FactoryKeepsInv(b, e);
    case DeleteArrives(_, _, _) => DeleteKeepsInv(b, e);
    case StopReturns(_) => DeleteKeepsInv(b, e);
    case _ =>
  }

  // ---- life of one entry ------------------------------------------------

  predicate Touches(e: Event, id: Id) {
    e == Terminates(id) || (e.DeleteArrives? && e.id == id)
  }

  /** What one event may do to an entry: it keeps its device, its state only goes from
      active to terminated, it goes away only by its own delayed delete or by the end of
      a DELETE that names it, and it comes only by its own start. */
  ghost predicate Lives(b: Bridge, e: Event, id: Id)
    requires Enabled(b, e)
  {
    var before, after := b.sessions, Step(b, e).sessions;
    && (id in before && id in after ==>
          && after[id].device == before[id].device
          && (after[id].state == before[id].state || after[id].state == Terminated))
    && (id in before && id !in after ==> e == TimerFires(id) || (e.StopReturns? && b.stopping[e.req] == id))
    && (id !in before && id in after ==> e.FactoryStarts? && b.starting[e.req].bridge == id)
  }

  lemma PostLives(b: Bridge, req: Id, device: Device, token: string, bridge: Id, id: Id)
    requires Enabled(b, PostArrives(req, device, token, bridge))
    ensures Lives(b, PostArrives(req, device, token, bridge), id)
  {
    assert Step(b, PostArrives(req, device, token, bridge)).sessions == b.sessions;
  }

  lemma StartLives(b: Bridge, req: Id, state: EntryState, fired: bool, id: Id)
    requires Inv(b) && Enabled(b, FactoryStarts(req, state, fired))
    ensures Lives(b, FactoryStarts(req, state, fired), id)
  {
    var s := b.starting[req];
    assert s.bridge !in b.sessions;
    assert Step(b, FactoryStarts(req, state, fired)).sessions
        == b.sessions[s.bridge := Entry(s.device, if fired then Terminated else state)];
  }

  lemma DeleteLives(b: Bridge, req: Id, named: Id, threw: bool, id: Id)
    requires Enabled(b, DeleteArrives(req, named, threw))
    ensures Lives(b, DeleteArrives(req, named, threw), id)
  {
  }

  lemma StopLives(b: Bridge, req: Id, id: Id)
    requires Enabled(b, StopReturns(req))
    ensures Lives(b, StopReturns(req), id)
  {
    assert Step(b, StopReturns(req)).sessions == b.sessions - {b.stopping[req]};
  }

  lemma TerminationLives(b: Bridge, gone: Id, id: Id)
    ensures Enabled(b, Terminates(gone)) ==> Lives(b, Terminates(gone), id)
    ensures Enabled(b, TimerFires(gone)) ==> Lives(b, TimerFires(gone), id)
  {
  }

  lemma EntryLife(b: Bridge, e: Event, id: Id)
    requires Inv(b) && Enabled(b, e)
    ensures Lives(b, e, id)
  {
    match e
    case PostArrives(req, device, token, bridge) => PostLives(b, req, device, token, bridge, id);
    case FactoryFails(req) => assert Step(b, e).sessions == b.sessions;
    case FactoryStarts(req, state, fired) => StartLives(b, req, state, fired, id);
    case DeleteArrives(req, named, threw) => DeleteLives(b, req, named, threw, id);
    case StopReturns(req) => StopLives(b, req, id);
    case Terminates(gone) => TerminationLives(b, gone, id);
    case TimerFires(gone) => TerminationLives(b, gone, id);
  }

  /** A drawn id that no entry and no start in flight has. */
  ghost predicate Gone(b: Bridge, id: Id) {
    id in b.issued && id !in b.sessions && forall r | r in b.starting :: b.starting[r].bridge != id
  }

  lemma GoneStep(b: Bridge, e: Event, id: Id)
    requires Inv(b) && Enabled(b, e) && Gone(b, id)
    ensures Gone(Step(b, e), id)
  {
    EntryLife(b, e, id);
  }

  /** An id that is gone never comes back, on any run. */
  lemma {:induction false} GoneStaysGone(b: Bridge, es: seq<Event>, id: Id)
    requires Inv(b) && Run(b, es) && Gone(b, id)
    ensures Gone(Exec(b, es), id)
    decreases |es|
  {
    if es == [] {
    } else {
      StepKeepsInv(b, es[0]);
      GoneStep(b, es[0], id);
      GoneStaysGone(Step(b, es[0]), es[1..], id);
    }
  }

  /** Over runs: an entry that is there at the end with its id drawn before was the same
      entry then, of the same device, and was active if it is active now. */
  lemma {:induction false} EntryHistory(b: Bridge, es: seq<Event>, id: Id)
    requires Inv(b) && Run(b, es) && id in b.sessions && id in Exec(b, es).sessions
    ensures Exec(b, es).sessions[id].device == b.sessions[id].device
    ensures Exec(b, es).sessions[id].state == b.sessions[id].state || Exec(b, es).sessions[id].state == Terminated
    decreases |es|
  {
    if es == [] {
    } else {
      var c := Step(b, es[0]);
      StepKeepsInv(b, es[0]);
      EntryLife(b, es[0], id);
      if id in c.sessions {
        EntryHistory(c, es[1..], id);
      } else {
        assert forall r | r in b.starting :: b.starting[r].bridge != id;
        assert Gone(c, id);
        GoneStaysGone(c, es[1..], id);
      }
    }
  }

  lemma UntouchedStep(b: Bridge, e: Event, id: Id)
    requires Inv(b) && Enabled(b, e) && id in b.sessions && !Touches(e, id)
    requires id !in b.timers && forall r | r in b.stopping :: b.stopping[r] != id
    ensures id in Step(b, e).sessions && Step(b, e).sessions[id] == b.sessions[id]
    ensures id !in Step(b, e).timers && forall r | r in Step(b, e).stopping :: Step(b, e).stopping[r] != id
  {
    if e.FactoryStarts? {
      assert b.starting[e.req].bridge != id;
    }
  }

  /** No run of other sessions' terminations, delayed deletes and DELETEs, nor of
      later POSTs for the same device, changes an entry that none of them names. */
  lemma {:induction false} UntouchedEntrySurvives(b: Bridge, es: seq<Event>, id: Id)
    requires Inv(b) && Run(b, es) && id in b.sessions
    requires id !in b.timers && forall r | r in b.stopping :: b.stopping[r] != id
    requires forall e | e in es :: !Touches(e, id)
    ensures id in Exec(b, es).sessions && Exec(b, es).sessions[id] == b.sessions[id]
    decreases |es|
  {
    if es == [] {
    } else {
      StepKeepsInv(b, es[0]);
      UntouchedStep(b, es[0], id);
      UntouchedEntrySurvives(Step(b, es[0]), es[1..], id);
    }
  }

  // ---- at most K sessions for a device ----------------------------------

  ghost function ActiveFor(b: Bridge, device: Device): set<Id> {
    set id | id in b.sessions && b.sessions[id] == Entry(device, Active)
  }

  ghost function StartsFor(b: Bridge, device: Device): set<Id> {
    set r | r in b.starting && b.starting[r].device == device
  }

  ghost predicate StartsOverlapAtMost(b: Bridge, es: seq<Event>, device: Device, k: nat)
    requires Run(b, es)
    decreases |es|
  {
    && |StartsFor(b, device)| <= k
    && (es != [] ==> StartsOverlapAtMost(Step(b, es[0]), es[1..], device, k))
  }

  lemma PostLoad(b: Bridge, e: Event, device: Device)
    requires Enabled(b, e) && e.PostArrives? && e.device == device && Step(b, e).starting != b.starting
    ensures ActiveFor(Step(b, e), device) == {}
  {
    assert !Busy(b, device);
  }

  lemma StartLoad(b: Bridge, e: Event, device: Device)
    requires Inv(b) && Enabled(b, e) && e.FactoryStarts? && b.starting[e.req].device == device
    ensures |ActiveFor(Step(b, e), device)| <= |ActiveFor(b, device)| + 1
    ensures |StartsFor(Step(b, e), device)| == |StartsFor(b, device)| - 1
  {
    var c := Step(b, e);
    assert StartsFor(c, device) == StartsFor(b, device) - {e.req};
    Smaller(ActiveFor(c, device), ActiveFor(b, device) + {b.starting[e.req].bridge});
  }

  lemma OtherLoad(b: Bridge, e: Event, device: Device)
    requires Enabled(b, e)
    requires e.PostArrives? ==> e.device != device || Step(b, e).starting == b.starting
    requires e.FactoryStarts? ==> b.starting[e.req].device != device
    ensures ActiveFor(Step(b, e), device) <= ActiveFor(b, device)
    ensures StartsFor(Step(b, e), device) <= StartsFor(b, device)
  {
  }

  lemma StepLoad(b: Bridge, e: Event, device: Device, k: nat)
    requires Inv(b) && Enabled(b, e)
    requires |ActiveFor(b, device)| + |StartsFor(b, device)| <= k
    requires |StartsFor(Step(b, e), device)| <= k
    ensures |ActiveFor(Step(b, e), device)| + |StartsFor(Step(b, e), device)| <= k
  {
    if e.PostArrives? && Step(b, e).starting != b.starting && e.device == device {
      PostLoad(b, e, device);
    } else if e.FactoryStarts? && b.starting[e.req].device == device {
      StartLoad(b, e, device);
    } else {
      OtherLoad(b, e, device);
      Smaller(ActiveFor(Step(b, e), device), ActiveFor(b, device));
      Smaller(StartsFor(Step(b, e), device), StartsFor(b, device));
    }
  }

  lemma {:induction false} Smaller<T>(a: set<T>, b: set<T>)
    requires a <= b
    ensures |a| <= |b|
  {
    if a == {} {
    } else {
      var x :| x in a;
      Smaller(a - {x}, b - {x});
    }
  }

  /** From any state within the bound, in particular the empty one: if at most k
      starts for the device ever overlap, active entries plus starts in flight
      never exceed k.  With k = 1 a device has at most one session. */
  lemma {:induction false} DeviceExclusive(b: Bridge, es: seq<Event>, device: Device, k: nat)
    requires Inv(b) && Run(b, es)
    requires |ActiveFor(b, device)| + |StartsFor(b, device)| <= k
    requires StartsOverlapAtMost(b, es, device, k)
    ensures |ActiveFor(Exec(b, es), device)| + |StartsFor(Exec(b, es), device)| <= k
    decreases |es|
  {
    if es == [] {
    } else {
      var c := Step(b, es[0]);
      StepKeepsInv(b, es[0]);
      assert |StartsFor(c, device)| <= k;
      StepLoad(b, es[0], device, k);
      DeviceExclusive(c, es[1..], device, k);
    }
  }

  // ---- the handlers ------------------------------------------------------

  /** The express app: each method is one stretch of a handler, timer or callback,
      and does to the fields what the event of the same name does. */
  class App {
    var sessions: map<Id, Entry>
    var starting: map<Id, Start>
    var stopping: map<Id, Id>
    var timers: multiset<Id>
    var replies: map<Id, Reply>
    var issued: set<Id>

    function View(): Bridge
      reads this
    {
      Bridge(sessions, starting, stopping, timers, replies, issued)
    }

    constructor ()
      ensures View() == EMPTY && Inv(View())
    {
      sessions, starting, stopping := map[], map[], map[];
      timers, replies, issued := multiset{}, map[], {};
    }

    /** POST /sessions up to the call of factory.start. */
    method PostSessions(req: Id, device: Device, token: string, bridge: Id)
      requires Enabled(View(), PostArrives(req, device, token, bridge))
      modifies this
      ensures View() == Step(old(View()), PostArrives(req, device, token, bridge))
    {
      if device == "" || token == "" {
        replies := replies[req := BadRequest];
        return;
      }
      var rest := sessions.Keys;
      while rest != {}
        invariant rest <= sessions.Keys
        invariant forall id | id in sessions && id !in rest :: sessions[id] != Entry(device, Active)
        decreases |rest|
      {
        var id :| id in rest;
        if sessions[id].device == device && sessions[id].state == Active {
          assert Busy(View(), device);
          replies := replies[req := DeviceBusy];
          return;
        }
        rest := rest - {id};
      }
      issued := issued + {bridge};
      starting := starting[req := Start(bridge, device)];
    }

    /** factory.start rejected. */
    method StartRejected(req: Id)
      requires Enabled(View(), FactoryFails(req))
      modifies this
      ensures View() == Step(old(View()), FactoryFails(req))
    {
      starting := starting - {req};
      replies := replies[req := SipFailed];
    }

    /** factory.start resolved: register the watchdog, which may fire at once, then
        store the session and answer 201. */
    method StartResolved(req: Id, state: EntryState, fired: bool)
      requires Enabled(View(), FactoryStarts(req, state, fired))
      modifies this
      ensures View() == Step(old(View()), FactoryStarts(req, state, fired))
    {
      var s := starting[req];
      var session := Entry(s.device, state);
      starting := starting - {req};
      if fired {
        session := session.(state := Terminated);
        timers := timers + multiset{s.bridge};
      }
      sessions := sessions[s.bridge := session];
      replies := replies[req := Created(s.bridge)];
    }

    /** DELETE /sessions/:id up to the call of session.stop. */
    method DeleteSession(req: Id, id: Id, threw: bool)
      requires Enabled(View(), DeleteArrives(req, id, threw))
      modifies this
      ensures View() == Step(old(View()), DeleteArrives(req, id, threw))
    {
      if id in sessions {
        stopping := stopping[req := id];
        if !threw {
          sessions := sessions[id := sessions[id].(state := Terminated)];
        }
      } else {
        replies := replies[req := NoContent];
      }
    }

    /** session.stop settled, either way: the entry goes and 204 is sent. */
    method StopSettled(req: Id)
      requires Enabled(View(), StopReturns(req))
      modifies this
      ensures View() == Step(old(View()), StopReturns(req))
    {
      sessions := sessions - {stopping[req]};
      stopping := stopping - {req};
      replies := replies[req := NoContent];
    }

    /** The watchdog callback of one session. */
    method OnTerminated(id: Id)
      requires Enabled(View(), Terminates(id))
      modifies this
      ensures View() == Step(old(View()), Terminates(id))
    {
      if id in sessions {
        sessions := sessions[id := sessions[id].(state := Terminated)];
      }
      timers := timers + multiset{id};
    }

    /** The delayed delete that the callback scheduled. */
    method DelayedDelete(id: Id)
      requires Enabled(View(), TimerFires(id))
      modifies this
      ensures View() == Step(old(View()), TimerFires(id))
      ensures sessions == old(sessions) - {id}
    {
      sessions := sessions - {id};
      timers := timers - multiset{id};
    }
  }
}
