/** What one call does from beginning to end when nothing comes in between: from every state
    that a run can reach, the labels of the call can be taken one after the other, and they
    end in exactly the state that the caller may expect. */
module LiveStreamCalls {
  import opened Common
  import SC = Sidecar
  import opened LiveStream
  import opened LiveStreamOwnership

  /** From s the labels lead to u. */
  ghost predicate Leads(s: State, ls: seq<Label>, u: State) {
    Run(s, ls) && Exec(s, ls) == u
  }

  lemma First(s: State, l: Label, ls: seq<Label>, u: State)
    requires Enabled(s, l) && Leads(Next(s, l), ls, u)
    ensures Leads(s, [l] + ls, u)
  {
    assert ([l] + ls)[1..] == ls;
  }

  lemma One(s: State, l: Label)
    requires Enabled(s, l)
    ensures Leads(s, [l], Next(s, l))
  {
    First(s, l, [], Next(s, l));
    assert [l] + [] == [l];
  }

  lemma Four(s: State, a: Label, b: Label, c: Label, d: Label) returns (u: State)
    requires Enabled(s, a) && Enabled(Next(s, a), b) && Enabled(Next(Next(s, a), b), c)
    requires Enabled(Next(Next(Next(s, a), b), c), d)
    ensures u == Next(Next(Next(Next(s, a), b), c), d) && Leads(s, [a, b, c, d], u)
  {
    var v := Next(s, a);
    var w := Next(v, b);
    u := Next(Next(w, c), d);
    One(Next(w, c), d);
    First(w, c, [d], u);
    First(v, b, [c] + [d], u);
    First(s, a, [b] + ([c] + [d]), u);
    assert [a] + ([b] + ([c] + [d])) == [a, b, c, d];
  }

  lemma {:induction false} Then(s: State, a: seq<Label>, v: State, b: seq<Label>, u: State)
    requires Leads(s, a, v) && Leads(v, b, u)
    ensures Leads(s, a + b, u)
    decreases |a|
  {
    if a == [] {
      assert a + b == b;
    } else {
      assert (a + b)[1..] == a[1..] + b && (a + b)[0] == a[0];
      Then(Next(s, a[0]), a[1..], v, b, u);
    }
  }

  lemma {:induction false} Unused(used: set<Id>) returns (n: Id)
    ensures forall x | x in used :: x < n
  {
    if used == {} {
      n := 0;
    } else {
      var x :| x in used;
      var m := Unused(used - {x});
      n := if m > x then m else x + 1;
      assert forall y | y in used :: y == x || y in used - {x};
    }
  }

  // ---- one stop ------------------------------------------------------------------------------

  ghost function StopLabels(s: State, t: Id, r: Id, b: Id, threw: bool): seq<Label> {
    [StopSent(t, r), AtSidecar(SC.DeleteArrives(r, b, threw))]
    + (if b in s.sidecar.sessions then [AtSidecar(SC.StopReturns(r))] else []) + [StopReplied(t)]
  }

  /** The entry is gone, the request answered, and the task knows. */
  ghost function AfterStop(s: State, t: Id, r: Id): State
    requires t in s.tasks && Stopping(s.tasks[t])
  {
    s.(tasks := s.tasks[t := s.tasks[t].(stop := Stopped(true))], used := s.used + {t, r},
       sidecar := s.sidecar.(sessions := s.sidecar.sessions - {Target(s.tasks[t])},
                             replies := s.sidecar.replies[r := SC.NoContent]))
  }

  ghost function Asked(s: State, t: Id, r: Id): State
    requires t in s.tasks && Stopping(s.tasks[t])
  {
    s.(tasks := s.tasks[t := s.tasks[t].(stop := Sent(r))], used := s.used + {t, r},
       inbox := s.inbox[r := DeleteSession(Target(s.tasks[t]))])
  }

  ghost function Done(s: State, t: Id, r: Id): State
    requires t in s.tasks && Stopping(s.tasks[t])
  {
    Asked(s, t, r).(inbox := s.inbox, sidecar := AfterStop(s, t, r).sidecar)
  }

  lemma AskedFollows(s: State, t: Id, r: Id)
    requires t in s.tasks && Stopping(s.tasks[t]) && s.tasks[t].stop.Unsent? && r !in s.used
    ensures Enabled(s, StopSent(t, r)) && Next(s, StopSent(t, r)) == Asked(s, t, r)
  {
  }

  lemma TakenIsGone(s: State, r: Id, x: Request)
    requires KeysUsed(s) && r !in s.used
    ensures s.inbox[r := x] - {r} == s.inbox
    ensures SC.FreshRequest(s.sidecar, r)
  {
  }

  lemma GoneFollows(s: State, t: Id, r: Id, threw: bool)
    requires KeysUsed(s) && t in s.tasks && Stopping(s.tasks[t]) && r !in s.used
    requires Target(s.tasks[t]) !in s.sidecar.sessions
    ensures var l := AtSidecar(SC.DeleteArrives(r, Target(s.tasks[t]), threw));
            Enabled(Asked(s, t, r), l) && Next(Asked(s, t, r), l) == Done(s, t, r)
  {
    TakenIsGone(s, r, DeleteSession(Target(s.tasks[t])));
    assert s.sidecar.sessions - {Target(s.tasks[t])} == s.sidecar.sessions;
  }

  lemma StoppedFollows(b: SC.Bridge, r: Id, id: Id, threw: bool)
    requires SC.FreshRequest(b, r) && id in b.sessions
    ensures var c := SC.Step(b, SC.DeleteArrives(r, id, threw));
            && SC.Enabled(c, SC.StopReturns(r))
            && SC.Step(c, SC.StopReturns(r))
            == b.(sessions := b.sessions - {id}, replies := b.replies[r := SC.NoContent])
  {
    var c := SC.Step(b, SC.DeleteArrives(r, id, threw));
    assert c.stopping - {r} == b.stopping;
    assert c.sessions - {id} == b.sessions - {id};
  }

  lemma EntryFollows(s: State, t: Id, r: Id, threw: bool)
    requires KeysUsed(s) && t in s.tasks && Stopping(s.tasks[t]) && r !in s.used
    requires Target(s.tasks[t]) in s.sidecar.sessions
    ensures Leads(Asked(s, t, r),
                  [AtSidecar(SC.DeleteArrives(r, Target(s.tasks[t]), threw)), AtSidecar(SC.StopReturns(r))],
                  Done(s, t, r))
  {
    var b := Target(s.tasks[t]);
    var e, f := SC.DeleteArrives(r, b, threw), SC.StopReturns(r);
    TakenIsGone(s, r, DeleteSession(Target(s.tasks[t])));
    StoppedFollows(s.sidecar, r, b, threw);
    var v := Next(Asked(s, t, r), AtSidecar(e));
    One(v, AtSidecar(f));
    First(Asked(s, t, r), AtSidecar(e), [AtSidecar(f)], Done(s, t, r));
    assert [AtSidecar(e)] + [AtSidecar(f)] == [AtSidecar(e), AtSidecar(f)];
  }

  lemma HeardFollows(s: State, t: Id, r: Id)
    requires t in s.tasks && Stopping(s.tasks[t])
    ensures Enabled(Done(s, t, r), StopReplied(t)) && Next(Done(s, t, r), StopReplied(t)) == AfterStop(s, t, r)
  {
  }

  /** A stop that nothing disturbs takes the entry away, whatever its own session.stop does. */
  lemma StopLeads(s: State, t: Id, r: Id, threw: bool)
    requires KeysUsed(s) && t in s.tasks && Stopping(s.tasks[t]) && s.tasks[t].stop.Unsent? && r !in s.used
    ensures Leads(s, StopLabels(s, t, r, Target(s.tasks[t]), threw), AfterStop(s, t, r))
  {
    var b := Target(s.tasks[t]);
    var sent, heard := StopSent(t, r), StopReplied(t);
    var taken, stopped := AtSidecar(SC.DeleteArrives(r, b, threw)), AtSidecar(SC.StopReturns(r));
    AskedFollows(s, t, r);
    HeardFollows(s, t, r);
    One(s, sent);
    One(Done(s, t, r), heard);
    var middle := if b in s.sidecar.sessions then [taken, stopped] else [taken];
    if b in s.sidecar.sessions {
      EntryFollows(s, t, r, threw);
    } else {
      GoneFollows(s, t, r, threw);
      One(Asked(s, t, r), taken);
    }
    Then(Asked(s, t, r), middle, Done(s, t, r), [heard], AfterStop(s, t, r));
    Then(s, [sent], Asked(s, t, r), middle + [heard], AfterStop(s, t, r));
    assert [sent] + (middle + [heard]) == StopLabels(s, t, r, b, threw);
  }

  // ---- delete_stream_session --------------------------------------------------------------------

  /** u is s but for the map, the sidecar's entries and what is used up; nothing is left over. */
  ghost predicate Clears(s: State, u: State, sessions: map<Id, Session>, entries: map<Id, SC.Entry>) {
    && u.sessions == sessions && u.sidecar.sessions == entries
    && u.tasks == s.tasks && u.inbox == s.inbox && u.max == s.max
    && u.sidecar.starting == s.sidecar.starting && u.sidecar.stopping == s.sidecar.stopping
    && u.sidecar.timers == s.sidecar.timers
  }

  ghost function DeleteLabels(s: State, t: Id, sid: Id, r: Id, threw: bool): seq<Label>
    requires sid in s.sessions
  {
    [DeleteBegins(t, sid)] + (StopLabels(s, t, r, s.sessions[sid].bridge, threw) + [StopFinished(t)])
  }

  lemma DeleteIsOver(s: State, t: Id, sid: Id, r: Id)
    requires KeysUsed(s) && sid in s.sessions && t !in s.used
    ensures var v := AfterStop(SetTask(s, t, Deleting(sid, s.sessions[sid].bridge, Unsent)), t, r);
            && Enabled(v, StopFinished(t))
            && Clears(s, Next(v, StopFinished(t)), s.sessions - {sid}, s.sidecar.sessions - {s.sessions[sid].bridge})
  {
    var v := AfterStop(SetTask(s, t, Deleting(sid, s.sessions[sid].bridge, Unsent)), t, r);
    assert v.tasks - {t} == s.tasks;
  }

  lemma DeleteRuns(s: State, t: Id, sid: Id, r: Id, threw: bool) returns (u: State)
    requires KeysUsed(s) && sid in s.sessions && t !in s.used && r !in s.used && t != r
    ensures Leads(s, DeleteLabels(s, t, sid, r, threw), u)
    ensures Clears(s, u, s.sessions - {sid}, s.sidecar.sessions - {s.sessions[sid].bridge})
  {
    var b := s.sessions[sid].bridge;
    var v := SetTask(s, t, Deleting(sid, b, Unsent));
    var w := AfterStop(v, t, r);
    StopLeads(v, t, r, threw);
    DeleteIsOver(s, t, sid, r);
    u := Next(w, StopFinished(t));
    One(w, StopFinished(t));
    Then(v, StopLabels(v, t, r, b, threw), w, [StopFinished(t)], u);
    assert StopLabels(v, t, r, b, threw) == StopLabels(s, t, r, b, threw);
    First(s, DeleteBegins(t, sid), StopLabels(s, t, r, b, threw) + [StopFinished(t)], u);
  }

  /** A delete that nothing disturbs takes the session out of the map and its entry out of the
      sidecar, and changes nothing else, in every state that a run can reach. */
  lemma DeleteCall(max: int, before: seq<Label>, s: State, t: Id, sid: Id, r: Id, threw: bool) returns (u: State)
    requires Leads(Init(max), before, s)
    requires sid in s.sessions && t !in s.used && r !in s.used && t != r
    ensures Leads(s, DeleteLabels(s, t, sid, r, threw), u)
    ensures Clears(s, u, s.sessions - {sid}, s.sidecar.sessions - {s.sessions[sid].bridge})
  {
    RunKeepsInv(Init(max), before);
    u := DeleteRuns(s, t, sid, r, threw);
  }

  lemma FailedIsOver(s: State, t: Id, sid: Id, r: Id)
    requires KeysUsed(s) && sid in s.sessions && t !in s.used && r !in s.used && t != r
    ensures var v := SetTask(s, t, Deleting(sid, s.sessions[sid].bridge, Unsent));
            && Enabled(v, StopSent(t, r)) && Enabled(Next(v, StopSent(t, r)), StopErred(t))
            && var w := Next(Next(v, StopSent(t, r)), StopErred(t));
               && Enabled(w, StopFinished(t))
               && var u := Next(w, StopFinished(t));
                  u.sessions == s.sessions - {sid} && u.tasks == s.tasks && u.sidecar == s.sidecar
  {
    var v := SetTask(s, t, Deleting(sid, s.sessions[sid].bridge, Unsent));
    AskedFollows(v, t, r);
    var w := Next(Asked(v, t, r), StopErred(t));
    assert w.tasks - {t} == s.tasks;
  }

  /** A delete whose stop fails takes the session out of the map all the same. */
  lemma DeleteFails(max: int, before: seq<Label>, s: State, t: Id, sid: Id, r: Id) returns (u: State)
    requires Leads(Init(max), before, s)
    requires sid in s.sessions && t !in s.used && r !in s.used && t != r
    ensures Leads(s, [DeleteBegins(t, sid), StopSent(t, r), StopErred(t), StopFinished(t)], u)
    ensures u.sessions == s.sessions - {sid} && u.tasks == s.tasks && u.sidecar == s.sidecar
  {
    RunKeepsInv(Init(max), before);
    FailedIsOver(s, t, sid, r);
    u := Four(s, DeleteBegins(t, sid), StopSent(t, r), StopErred(t), StopFinished(t));
  }

  /** A delete of an id that is not in the map does nothing. */
  lemma DeleteOfUnknown(s: State, t: Id, sid: Id)
    requires t !in s.used && sid !in s.sessions
    ensures Enabled(s, DeleteBegins(t, sid)) && Next(s, DeleteBegins(t, sid)) == s.(used := s.used + {t})
  {
  }

  // ---- aclose ---------------------------------------------------------------------------------

  ghost function AsSet(bs: seq<Id>): set<Id> {
    set b | b in bs
  }

  /** What a shutdown that has one session behind it goes on from. */
  lemma ShutdownGoesOn(s: State, t: Id)
    requires t in s.tasks && s.tasks[t].Closing? && s.tasks[t].bridges != [] && s.tasks[t].stop == Stopped(true)
    ensures Enabled(s, StopFinished(t))
    ensures var u, rest := Next(s, StopFinished(t)), s.tasks[t].bridges[1..];
            && u.tasks == (if rest == [] then s.tasks - {t} else s.tasks[t := Closing(rest, Unsent)])
            && u.sessions == s.sessions && u.inbox == s.inbox && u.max == s.max && u.sidecar == s.sidecar
            && u.callers == s.callers && s.used <= u.used
  {
  }

  lemma StillUsed(s: State, u: State, t: Id, r: Id)
    requires KeysUsed(s) && s.used + {t, r} <= u.used && u.tasks.Keys <= s.tasks.Keys + {t}
    requires u.sessions == s.sessions && u.inbox == s.inbox && u.callers == s.callers
    requires u.sidecar.starting == s.sidecar.starting && u.sidecar.stopping == s.sidecar.stopping
    requires u.sidecar.replies.Keys <= s.sidecar.replies.Keys + {r}
    ensures KeysUsed(u)
  {
  }

  /** One session of a shutdown: from its stop to the next one, or to the end. */
  lemma OneCloses(s: State, t: Id) returns (ls: seq<Label>, u: State)
    requires KeysUsed(s) && t in s.tasks && s.tasks[t].Closing? && s.tasks[t].bridges != []
    requires s.tasks[t].stop.Unsent?
    ensures Leads(s, ls, u) && KeysUsed(u)
    ensures var rest := s.tasks[t].bridges[1..];
            u.tasks == if rest == [] then s.tasks - {t} else s.tasks[t := Closing(rest, Unsent)]
    ensures Clears(s.(tasks := u.tasks), u, s.sessions, s.sidecar.sessions - {s.tasks[t].bridges[0]})
  {
    var r := Unused(s.used);
    var b := s.tasks[t].bridges[0];
    var v := AfterStop(s, t, r);
    StopLeads(s, t, r, false);
    ShutdownGoesOn(v, t);
    u := Next(v, StopFinished(t));
    One(v, StopFinished(t));
    ls := StopLabels(s, t, r, b, false) + [StopFinished(t)];
    Then(s, StopLabels(s, t, r, b, false), v, [StopFinished(t)], u);
    StillUsed(s, u, t, r);
  }

  lemma ClearsOn(s: State, v: State, u: State, tasks: map<Id, Task>, sessions: map<Id, Session>,
                 some: map<Id, SC.Entry>, entries: map<Id, SC.Entry>)
    requires Clears(s.(tasks := v.tasks), v, sessions, some) && Clears(v.(tasks := tasks), u, sessions, entries)
    ensures Clears(s.(tasks := tasks), u, sessions, entries)
  {
  }

  lemma OneLess<T>(m: map<Id, T>, bs: seq<Id>)
    requires bs != []
    ensures m - AsSet(bs) == m - {bs[0]} - AsSet(bs[1..])
  {
    assert AsSet(bs) == {bs[0]} + AsSet(bs[1..]);
  }

  lemma RestCloses(s: State, t: Id, v: State, u: State, bs: seq<Id>)
    requires bs != [] && t in s.tasks && v.tasks == s.tasks[t := Closing(bs[1..], Unsent)]
    requires Clears(s.(tasks := v.tasks), v, s.sessions, s.sidecar.sessions - {bs[0]})
    requires Clears(v.(tasks := v.tasks - {t}), u, v.sessions, v.sidecar.sessions - AsSet(bs[1..]))
    ensures Clears(s.(tasks := s.tasks - {t}), u, s.sessions, s.sidecar.sessions - AsSet(bs))
  {
    OneLess(s.sidecar.sessions, bs);
    assert v.tasks - {t} == s.tasks - {t};
    ClearsOn(s, v, u, s.tasks - {t}, s.sessions, v.sidecar.sessions, u.sidecar.sessions);
  }

  lemma LastCloses(s: State, t: Id, v: State, bs: seq<Id>)
    requires bs != [] && bs[1..] == [] && v.tasks == s.tasks - {t}
    requires Clears(s.(tasks := v.tasks), v, s.sessions, s.sidecar.sessions - {bs[0]})
    ensures Clears(s.(tasks := s.tasks - {t}), v, s.sessions, s.sidecar.sessions - AsSet(bs))
  {
    OneLess(s.sidecar.sessions, bs);
    assert AsSet(bs[1..]) == {};
  }

  lemma {:induction false} AllClose(s: State, t: Id) returns (ls: seq<Label>, u: State)
    requires KeysUsed(s) && t in s.tasks && s.tasks[t].Closing? && s.tasks[t].bridges != []
    requires s.tasks[t].stop.Unsent?
    ensures Leads(s, ls, u)
    ensures Clears(s.(tasks := s.tasks - {t}), u, s.sessions, s.sidecar.sessions - AsSet(s.tasks[t].bridges))
    decreases |s.tasks[t].bridges|
  {
    var bs := s.tasks[t].bridges;
    var v;
    ls, v := OneCloses(s, t);
    if bs[1..] == [] {
      u := v;
      LastCloses(s, t, v, bs);
    } else {
      var rest;
      rest, u := AllClose(v, t);
      Then(s, ls, v, rest, u);
      ls := ls + rest;
      RestCloses(s, t, v, u, bs);
    }
  }

  lemma {:induction false} Listing(keys: set<Id>) returns (order: seq<Id>)
    ensures Lists(order, keys)
  {
    if keys == {} {
      order := [];
    } else {
      var x :| x in keys;
      var rest := Listing(keys - {x});
      order := [x] + rest;
    }
  }

  /** The bridge ids of the sessions in the map. */
  ghost function Bridges(s: State): set<Id> {
    set sid | sid in s.sessions :: s.sessions[sid].bridge
  }

  lemma CloseBeginsWith(s: State, t: Id, order: seq<Id>)
    requires KeysUsed(s) && Enabled(s, CloseBegins(t, order))
    ensures var u := Next(s, CloseBegins(t, order));
            && Clears(s.(tasks := u.tasks), u, map[], s.sidecar.sessions) && KeysUsed(u)
            && (if order == [] then u.tasks == s.tasks
                else t in u.tasks && u.tasks[t].Closing? && u.tasks[t].bridges != [] && u.tasks[t].stop.Unsent?
                     && u.tasks - {t} == s.tasks && AsSet(u.tasks[t].bridges) == Bridges(s))
  {
    var u := Next(s, CloseBegins(t, order));
    CloseBeginsUsed(s, t, order);
    if order != [] {
      forall b | b in Bridges(s) ensures b in u.tasks[t].bridges {
        var sid :| sid in s.sessions && s.sessions[sid].bridge == b;
        var i :| 0 <= i < |order| && order[i] == sid;
        assert u.tasks[t].bridges[i] == b;
      }
    }
  }

  lemma AllClosed(s: State, t: Id, v: State, u: State)
    requires t in v.tasks && v.tasks[t].Closing? && v.tasks - {t} == s.tasks && AsSet(v.tasks[t].bridges) == Bridges(s)
    requires Clears(s.(tasks := v.tasks), v, map[], s.sidecar.sessions)
    requires Clears(v.(tasks := v.tasks - {t}), u, v.sessions, v.sidecar.sessions - AsSet(v.tasks[t].bridges))
    ensures Clears(s, u, map[], s.sidecar.sessions - Bridges(s))
  {
    ClearsOn(s, v, u, s.tasks, map[], s.sidecar.sessions, u.sidecar.sessions);
  }

  lemma CloseRuns(s: State, t: Id, order: seq<Id>) returns (ls: seq<Label>, u: State)
    requires KeysUsed(s) && Enabled(s, CloseBegins(t, order))
    ensures Leads(Next(s, CloseBegins(t, order)), ls, u)
    ensures Clears(s, u, map[], s.sidecar.sessions - Bridges(s))
  {
    var v := Next(s, CloseBegins(t, order));
    CloseBeginsWith(s, t, order);
    if order == [] {
      assert s.sessions == map[] && Bridges(s) == {};
      ls, u := [], v;
    } else {
      ls, u := AllClose(v, t);
      AllClosed(s, t, v, u);
    }
  }

  /** A shutdown that nothing disturbs empties the map and takes the entries of all its
      sessions out of the sidecar, and no other ones. */
  lemma CloseCall(max: int, before: seq<Label>, s: State, t: Id) returns (order: seq<Id>, ls: seq<Label>, u: State)
    requires Leads(Init(max), before, s) && t !in s.used
    ensures Leads(s, [CloseBegins(t, order)] + ls, u)
    ensures Clears(s, u, map[], s.sidecar.sessions - Bridges(s))
  {
    RunKeepsInv(Init(max), before);
    order := Listing(s.sessions.Keys);
    ls, u := CloseRuns(s, t, order);
    First(s, CloseBegins(t, order), ls, u);
  }
}
