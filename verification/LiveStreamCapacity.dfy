/** How far the non-atomic capacity check can be overshot. */
module LiveStreamCapacity {
  import opened Common
  import SC = Sidecar
  import opened LiveStream

  /** Create tasks that passed check_capacity and have not bound their session yet. */
  predicate IsPending(task: Task) {
    task.LoadingToken? || task.AwaitingStart? || task.HoldingReply?
  }

  ghost function Pending(s: State): set<Id> {
    set t | t in s.tasks && IsPending(s.tasks[t])
  }

  ghost function Load(s: State): nat {
    |s.sessions| + |Pending(s)|
  }

  ghost predicate PendingAtMost(s: State, ls: seq<Label>, k: nat)
    requires Run(s, ls)
    decreases |ls|
  {
    && |Pending(s)| <= k
    && (ls != [] ==> PendingAtMost(Next(s, ls[0]), ls[1..], k))
  }

  lemma BindSets(s: State, t: Id, sid: Id)
    requires Enabled(s, Bind(t, sid))
    ensures Pending(DoBind(s, t, sid)) == Pending(s) - {t}
    ensures DoBind(s, t, sid).sessions.Keys == s.sessions.Keys + {sid}
  {
  }

  lemma BindLoad(s: State, t: Id, sid: Id)
    requires Enabled(s, Bind(t, sid)) && s.sessions.Keys <= s.used
    ensures Load(DoBind(s, t, sid)) == Load(s)
    ensures DoBind(s, t, sid).max == s.max && DoBind(s, t, sid).sessions.Keys <= DoBind(s, t, sid).used
  {
    var u := DoBind(s, t, sid);
    BindSets(s, t, sid);
    assert t in Pending(s) && sid !in s.sessions.Keys;
    SizeOfKeys(u.sessions);
    SizeOfKeys(s.sessions);
  }

  lemma SizeOfKeys<K, V>(m: map<K, V>)
    ensures |m| == |m.Keys|
  {
  }

  /** From s to u no session and no pending task came up. */
  ghost predicate Shrinks(s: State, u: State) {
    && u.max == s.max && s.used <= u.used
    && u.sessions.Keys <= s.sessions.Keys
    && (forall t | t in u.tasks && IsPending(u.tasks[t]) :: t in s.tasks && IsPending(s.tasks[t]))
  }

  lemma ShrinksLoad(s: State, u: State)
    requires Shrinks(s, u)
    ensures Load(u) <= Load(s)
  {
    SC.Smaller(u.sessions.Keys, s.sessions.Keys);
    SC.Smaller(Pending(u), Pending(s));
    SizeOfKeys(u.sessions);
    SizeOfKeys(s.sessions);
  }

  lemma TokenLoadedShrinks(s: State, t: Id, req: Id, token: Option<string>)
    requires Enabled(s, TokenLoaded(t, req, token))
    ensures Shrinks(s, DoTokenLoaded(s, t, req, token))
  {
  }

  lemma StartRepliedShrinks(s: State, t: Id)
    requires Enabled(s, StartReplied(t))
    ensures Shrinks(s, DoStartReplied(s, t))
  {
  }

  lemma WhepAcceptedShrinks(s: State, t: Id, audio: bool)
    requires Enabled(s, WhepAccepted(t, audio))
    ensures Shrinks(s, DoWhepAccepted(s, t, audio))
  {
  }

  lemma WhepFailedShrinks(s: State, t: Id)
    requires Enabled(s, WhepFailed(t))
    ensures Shrinks(s, DoWhepFailed(s, t))
  {
  }

  lemma DeleteBeginsShrinks(s: State, t: Id, sid: Id)
    requires Enabled(s, DeleteBegins(t, sid))
    ensures Shrinks(s, DoDeleteBegins(s, t, sid))
  {
  }

  lemma CloseBeginsShrinks(s: State, t: Id, order: seq<Id>)
    requires Enabled(s, CloseBegins(t, order))
    ensures Shrinks(s, DoCloseBegins(s, t, order))
  {
  }

  lemma StopSentShrinks(s: State, t: Id, req: Id)
    requires Enabled(s, StopSent(t, req))
    ensures Shrinks(s, DoStopSent(s, t, req))
  {
  }

  lemma StopRepliedShrinks(s: State, t: Id)
    requires Enabled(s, StopReplied(t))
    ensures Shrinks(s, DoStopReplied(s, t))
  {
  }

  lemma StopErredShrinks(s: State, t: Id)
    requires Enabled(s, StopErred(t))
    ensures Shrinks(s, DoStopErred(s, t))
  {
  }

  lemma HandoverShrinks(s: State, u: State, bridge: Id, from: Fate, to: Fate)
    requires Shrinks(s, u)
    ensures Shrinks(s, Handover(u, bridge, from, to))
  {
  }

  lemma EndShrinks(s: State, t: Id, gone: set<Id>)
    ensures Shrinks(s, EndTask(s, t).(sessions := s.sessions - gone))
  {
  }

  lemma GoOnShrinks(s: State, t: Id, rest: seq<Id>)
    ensures Shrinks(s, SetTask(s, t, Closing(rest, Unsent)))
  {
  }

  lemma StopFinishedShrinks(s: State, t: Id)
    requires Enabled(s, StopFinished(t))
    ensures Shrinks(s, DoStopFinished(s, t))
  {
    var outcome := if s.tasks[t].stop.ok then Released else StopFailed;
    assert s.sessions - {} == s.sessions;
    EndShrinks(s, t, {});
    match s.tasks[t]
    case CleaningUp(bridge, _) => HandoverShrinks(s, EndTask(s, t), bridge, StopPending(t), outcome);
    case Deleting(sid, bridge, _) =>
      EndShrinks(s, t, {sid});
      HandoverShrinks(s, EndTask(s, t).(sessions := s.sessions - {sid}), bridge, InMap(sid), outcome);
    case Closing(bridges, _) =>
      GoOnShrinks(s, t, bridges[1..]);
      HandoverShrinks(s, if bridges[1..] == [] then EndTask(s, t) else SetTask(s, t, Closing(bridges[1..], Unsent)),
                      bridges[0], StopPending(t), outcome);
  }

  lemma AbandonedShrinks(s: State, t: Id)
    requires Enabled(s, Abandoned(t))
    ensures Shrinks(s, DoAbandoned(s, t))
  {
  }

  lemma AtSidecarShrinks(s: State, e: SC.Event)
    requires Enabled(s, AtSidecar(e))
    ensures Shrinks(s, DoAtSidecar(s, e))
  {
  }

  lemma QuietShrinks(s: State, l: Label)
    requires Enabled(s, l) && !l.CreateBegins? && !l.Bind?
    ensures Shrinks(s, Next(s, l))
  {
    match l
    case TokenLoaded(t, req, token) => TokenLoadedShrinks(s, t, req, token);
    case StartReplied(t) => StartRepliedShrinks(s, t);
    case WhepAccepted(t, audio) => WhepAcceptedShrinks(s, t, audio);
    case WhepFailed(t) => WhepFailedShrinks(s, t);
    case DeleteBegins(t, sid) => DeleteBeginsShrinks(s, t, sid);
    case CloseBegins(t, order) => CloseBeginsShrinks(s, t, order);
    case StopSent(t, req) => StopSentShrinks(s, t, req);
    case StopReplied(t) => StopRepliedShrinks(s, t);
    case StopErred(t) => StopErredShrinks(s, t);
    case StopFinished(t) => StopFinishedShrinks(s, t);
    case Abandoned(t) => AbandonedShrinks(s, t);
    case AtSidecar(e) => AtSidecarShrinks(s, e);
  }

  lemma NextLoad(s: State, l: Label, k: nat)
    requires Enabled(s, l) && s.sessions.Keys <= s.used
    requires Load(s) <= s.max - 1 + k && |Pending(Next(s, l))| <= k
    ensures Load(Next(s, l)) <= s.max - 1 + k
    ensures Next(s, l).max == s.max && Next(s, l).sessions.Keys <= Next(s, l).used
  {
    if l.Bind? {
      BindLoad(s, l.t, l.sid);
    } else if l.CreateBegins? {
      if |s.sessions| >= s.max {
        assert Shrinks(s, DoCreateBegins(s, l.t, l.device));
        ShrinksLoad(s, DoCreateBegins(s, l.t, l.device));
      }
    } else {
      QuietShrinks(s, l);
      ShrinksLoad(s, Next(s, l));
    }
  }

  lemma {:induction false} RunLoad(s: State, ls: seq<Label>, k: nat)
    requires Run(s, ls) && s.sessions.Keys <= s.used
    requires Load(s) <= s.max - 1 + k && PendingAtMost(s, ls, k)
    ensures Load(Exec(s, ls)) <= s.max - 1 + k
    decreases |ls|
  {
    if ls == [] {
    } else {
      NextLoad(s, ls[0], k);
      RunLoad(Next(s, ls[0]), ls[1..], k);
    }
  }

  /** If at most k create tasks are ever between the check and the bind, sessions
      plus pending creates never exceed max - 1 + k; with k = 1 the limit is exact. */
  lemma CapacityOvershoot(max: int, ls: seq<Label>, k: nat)
    requires max >= 1 && k >= 1
    requires Run(Init(max), ls) && PendingAtMost(Init(max), ls, k)
    ensures Load(Exec(Init(max), ls)) <= max - 1 + k
  {
    assert Pending(Init(max)) == {};
    RunLoad(Init(max), ls, k);
  }
}
