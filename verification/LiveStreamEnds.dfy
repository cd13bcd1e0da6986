/** What the calls of the adapter must have done when they are over, on every run. */
module LiveStreamEnds {
  import opened Common
  import SC = Sidecar
  import opened LiveStream
  import opened LiveStreamOwnership

  // ---- sessions leave the map ------------------------------------------------------------

  /** A delete of the session ends, in whatever way; or its WHEP exchange fails; or a
      shutdown begins while it stands in the map. */
  predicate Removes(s: State, l: Label, sid: Id) {
    match l
    case StopFinished(t) => t in s.tasks && s.tasks[t].Deleting? && s.tasks[t].sid == sid
    case Abandoned(t) => t in s.tasks && s.tasks[t].Deleting? && s.tasks[t].sid == sid
    case WhepFailed(t) => t in s.tasks && s.tasks[t].AwaitingWhep? && s.tasks[t].sid == sid
    case CloseBegins(_, _) => sid in s.sessions
    case _ => false
  }

  ghost predicate Removed(s: State, ls: seq<Label>, sid: Id)
    requires Run(s, ls)
    decreases |ls|
  {
    ls != [] && (Removes(s, ls[0], sid) || Removed(Next(s, ls[0]), ls[1..], sid))
  }

  /** A drawn session id that is not in the map. */
  predicate Out(s: State, sid: Id) {
    sid in s.used && sid !in s.sessions
  }

  /** Every session of s but for those that the label removes is in u, and of others only
      the one that it binds; ids stay drawn. */
  ghost predicate Keeps(s: State, l: Label, u: State) {
    && s.used <= u.used
    && forall sid :: (sid in s.sessions || (l.Bind? && l.sid == sid)) && !Removes(s, l, sid) <==> sid in u.sessions
  }

  lemma CreateKeeps(s: State, l: Label)
    requires Enabled(s, l)
    requires l.CreateBegins? || l.TokenLoaded? || l.StartReplied? || l.Bind? || l.WhepAccepted? || l.WhepFailed?
    ensures Keeps(s, l, Next(s, l))
  {
  }

  lemma OtherKeeps(s: State, l: Label)
    requires Enabled(s, l)
    requires l.DeleteBegins? || l.CloseBegins? || l.StopSent? || l.StopReplied? || l.StopErred?
    ensures Keeps(s, l, Next(s, l))
  {
  }

  lemma StopFinishedKeeps(s: State, t: Id)
    requires Enabled(s, StopFinished(t))
    ensures Keeps(s, StopFinished(t), DoStopFinished(s, t))
  {
    var u := DoStopFinished(s, t);
    assert s.used <= u.used;
    assert u.sessions == if s.tasks[t].Deleting? then s.sessions - {s.tasks[t].sid} else s.sessions;
  }

  lemma AbandonedKeeps(s: State, t: Id)
    requires Enabled(s, Abandoned(t))
    ensures Keeps(s, Abandoned(t), DoAbandoned(s, t))
  {
  }

  lemma NextKeeps(s: State, l: Label)
    requires Enabled(s, l)
    ensures Keeps(s, l, Next(s, l))
  {
    match l
    case StopFinished(t) => StopFinishedKeeps(s, t);
    case Abandoned(t) => AbandonedKeeps(s, t);
    case AtSidecar(e) =>
    case DeleteBegins(_, _) => OtherKeeps(s, l);
    case CloseBegins(_, _) => OtherKeeps(s, l);
    case StopSent(_, _) => OtherKeeps(s, l);
    case StopReplied(_) => OtherKeeps(s, l);
    case StopErred(_) => OtherKeeps(s, l);
    case _ => CreateKeeps(s, l);
  }

  lemma RemovedWasDrawn(s: State, l: Label, sid: Id)
    requires Inv(s) && Enabled(s, l) && Removes(s, l, sid)
    ensures sid in s.used
  {
    match l
    case StopFinished(t) => assert TaskOk(s, t);
    case Abandoned(t) => assert TaskOk(s, t);
    case WhepFailed(t) => assert TaskOk(s, t);
    case CloseBegins(_, _) =>
  }

  lemma RemovalTakesOut(s: State, l: Label, sid: Id)
    requires Inv(s) && Enabled(s, l) && Removes(s, l, sid)
    ensures Out(Next(s, l), sid)
  {
    RemovedWasDrawn(s, l, sid);
    NextKeeps(s, l);
  }

  lemma {:induction false} StaysOut(s: State, ls: seq<Label>, sid: Id)
    requires Run(s, ls) && Out(s, sid)
    ensures Out(Exec(s, ls), sid)
    decreases |ls|
  {
    if ls != [] {
      NextKeeps(s, ls[0]);
      StaysOut(Next(s, ls[0]), ls[1..], sid);
    }
  }

  lemma {:induction false} RemovedIsOut(s: State, ls: seq<Label>, sid: Id)
    requires Inv(s) && Run(s, ls) && Removed(s, ls, sid)
    ensures Out(Exec(s, ls), sid)
    decreases |ls|
  {
    var u := Next(s, ls[0]);
    if Removes(s, ls[0], sid) {
      RemovalTakesOut(s, ls[0], sid);
      StaysOut(u, ls[1..], sid);
    } else {
      NextKeepsInv(s, ls[0]);
      RemovedIsOut(u, ls[1..], sid);
    }
  }

  // ---- the map, told by the run --------------------------------------------------------

  predicate BoundIn(ls: seq<Label>, sid: Id) {
    exists i :: 0 <= i < |ls| && ls[i].Bind? && ls[i].sid == sid
  }

  lemma BoundInRest(ls: seq<Label>, sid: Id)
    requires ls != []
    ensures BoundIn(ls, sid) <==> (ls[0].Bind? && ls[0].sid == sid) || BoundIn(ls[1..], sid)
  {
    if i :| 0 <= i < |ls| && ls[i].Bind? && ls[i].sid == sid {
      assert i > 0 ==> ls[1..][i - 1] == ls[i];
    }
  }

  lemma {:induction false} StandsUnlessRemoved(s: State, ls: seq<Label>, sid: Id)
    requires Inv(s) && Run(s, ls)
    ensures sid in Exec(s, ls).sessions <==> (sid in s.sessions || BoundIn(ls, sid)) && !Removed(s, ls, sid)
    decreases |ls|
  {
    if ls == [] {
    } else if Removes(s, ls[0], sid) {
      RemovedIsOut(s, ls, sid);
    } else {
      NextKeepsInv(s, ls[0]);
      NextKeeps(s, ls[0]);
      BoundInRest(ls, sid);
      StandsUnlessRemoved(Next(s, ls[0]), ls[1..], sid);
    }
  }

  /** On every run the map holds exactly the sessions that were bound on the run, but for
      those whose delete has ended (with success, an error or a cancellation), whose WHEP
      exchange has failed, or that stood in the map when a shutdown began. */
  lemma MapIsBoundAndNotRemoved(max: int, ls: seq<Label>, sid: Id)
    requires Run(Init(max), ls)
    ensures sid in Exec(Init(max), ls).sessions <==> BoundIn(ls, sid) && !Removed(Init(max), ls, sid)
  {
    StandsUnlessRemoved(Init(max), ls, sid);
  }
}
