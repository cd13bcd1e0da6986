/** When a POST can follow a 401: not before the next save, unless the caller that got
    the 401 died before it had marked the row. */
module TokenRejection {
  import opened Common
  import opened TokenLifecycle

  // ---- after a 401 ---------------------------------------------------------------------

  lemma {:induction false} LogPrefix(log: seq<Event>, n: nat)
    requires Silent(log) && Settled(log) && n <= |log|
    ensures Silent(log[..n]) && Settled(log[..n])
  {
    if n == |log| {
      assert log[..n] == log;
    } else {
      LogPrefix(log[..|log| - 1], n);
      assert log[..|log| - 1][..n] == log[..n];
    }
  }

  lemma LogAt(log: seq<Event>, k: nat)
    requires Silent(log) && Settled(log) && k < |log|
    ensures log[k].Posted? || log[k].Rejection? ==> !Rejected(log[..k])
    ensures EndsIn(log[..k], Rejection) <==> log[k].Invalidated? || log[k].Unmarked?
    ensures log[k].Rejection? ==> Rejected(log[..k + 1])
    ensures Rejected(log[..k]) && !log[k].Saved? && !log[k].Unmarked? ==> Rejected(log[..k + 1])
  {
    LogPrefix(log, k + 1);
    assert log[..k + 1][..k] == log[..k];
  }

  /** Once the row was marked the token stands rejected until a save. */
  lemma {:induction false} StaysRejected(log: seq<Event>, i: nat, m: nat)
    requires Silent(log) && Settled(log) && i < m <= |log| && log[i].Rejection?
    requires i + 1 < |log| ==> !log[i + 1].Unmarked?
    requires forall k | i < k < m :: !log[k].Saved?
    ensures Rejected(log[..m])
    decreases m
  {
    LogAt(log, m - 1);
    if m > i + 1 {
      StaysRejected(log, i, m - 1);
      if log[m - 1].Unmarked? {
        LogAt(log, m - 2);
        StaysRejected(log, i, m - 2);
      }
    }
  }

  /** A POST after the event at i, and no save before it. */
  ghost predicate PostsUnsaved(log: seq<Event>, i: nat) {
    exists j :: i < j < |log| && log[j].Posted? && forall k | i < k < j :: !log[k].Saved?
  }

  /** On every run: a POST after a 401 and before the next save means that the caller
      which got the 401 died before it had marked the row. */
  lemma SilentUnlessUnmarked(s: State, current: string, now: real, ls: seq<Label>, i: nat)
    requires Reached(s, current, now, ls) && i < |s.log| && s.log[i].Rejection? && PostsUnsaved(s.log, i)
    ensures i + 1 < |s.log| && s.log[i + 1].Unmarked?
  {
    RunKeeps(Init(current, now), ls);
    var j :| i < j < |s.log| && s.log[j].Posted? && forall k | i < k < j :: !s.log[k].Saved?;
    if !s.log[i + 1].Unmarked? {
      StaysRejected(s.log, i, j);
      LogAt(s.log, j);
    }
  }

  /** After a row was marked invalid no POST is made until a save. */
  lemma SilentAfterInvalidation(s: State, current: string, now: real, ls: seq<Label>, i: nat)
    requires Reached(s, current, now, ls) && i < |s.log| && s.log[i].Invalidated?
    ensures !PostsUnsaved(s.log, i)
  {
    RunKeeps(Init(current, now), ls);
    LogAt(s.log, i);
    assert s.log[i - 1].Rejection?;
    if PostsUnsaved(s.log, i) {
      var j :| i < j < |s.log| && s.log[j].Posted? && forall k | i < k < j :: !s.log[k].Saved?;
      assert PostsUnsaved(s.log, i - 1);
      SilentUnlessUnmarked(s, current, now, ls, i - 1);
    }
  }

  // ---- and after a 401 whose caller died --------------------------------------------------

  /** Whoever comes next finds a valid row and a stale access token. */
  predicate Inviting(s: State) {
    && s.row.Some? && s.row.value.valid && !Fresh(s, s.clock)
    && (s.lock.Some? ==> s.lock.value in s.tasks && s.tasks[s.lock.value].Loading?)
  }

  lemma InvitingStep(s: State, l: Label)
    requires Exclusive(s) && Inviting(s) && Enabled(s, l) && !l.Save?
    ensures Inviting(Next(s, l)) || (|Next(s, l).log| > |s.log| && Next(s, l).log[|s.log|].Posted?)
  {
  }

  ghost predicate Later(log: seq<Event>, i: nat) {
    exists k :: i < k < |log| && (log[k].Posted? || log[k].Saved?)
  }

  /** Every death between a 401 and its mark was followed by a POST or a save, or still
      invites one. */
  ghost predicate DeathsInvite(s: State) {
    forall i: nat | i < |s.log| && s.log[i].Unmarked? :: Later(s.log, i) || Inviting(s)
  }

  lemma LogGrows(s: State, l: Label)
    requires Enabled(s, l)
    ensures s.log <= Next(s, l).log && |Next(s, l).log| <= |s.log| + 1
    ensures l.Save? ==> Next(s, l).log == s.log + [Saved]
  {
  }

  lemma DeathInvites(s: State, l: Label)
    requires Exclusive(s) && Agreement(s) && LogOk(s) && Enabled(s, l)
    requires |Next(s, l).log| > |s.log| && Next(s, l).log[|s.log|].Unmarked?
    ensures Inviting(Next(s, l))
  {
    assert l.Dies? && PcAgrees(s, s.tasks[l.t]);
  }

  lemma NextDeathsInvite(s: State, l: Label)
    requires Exclusive(s) && Agreement(s) && LogOk(s) && DeathsInvite(s) && Enabled(s, l)
    ensures DeathsInvite(Next(s, l))
  {
    var u := Next(s, l);
    LogGrows(s, l);
    forall i: nat | i < |u.log| && u.log[i].Unmarked? ensures Later(u.log, i) || Inviting(u) {
      if i == |s.log| {
        DeathInvites(s, l);
      } else if Later(s.log, i) {
        var k :| i < k < |s.log| && (s.log[k].Posted? || s.log[k].Saved?);
        assert u.log[k] == s.log[k];
      } else if l.Save? {
        assert u.log[|s.log|].Saved?;
      } else {
        InvitingStep(s, l);
      }
    }
  }

  lemma {:induction false} RunDeathsInvite(s: State, ls: seq<Label>)
    requires Exclusive(s) && Agreement(s) && LogOk(s) && DeathsInvite(s) && Run(s, ls)
    ensures DeathsInvite(Exec(s, ls)) && s.log <= Exec(s, ls).log
    decreases |ls|
  {
    if ls == [] {
    } else {
      NextAgrees(s, ls[0]);
      NextLogOk(s, ls[0]);
      NextDeathsInvite(s, ls[0]);
      LogGrows(s, ls[0]);
      RunDeathsInvite(Next(s, ls[0]), ls[1..]);
    }
  }

  lemma {:induction false} Above(keys: set<Id>) returns (n: Id)
    ensures forall x | x in keys :: x < n
  {
    if keys == {} {
      n := 0;
    } else {
      var x :| x in keys;
      var m := Above(keys - {x});
      n := if m > x then m else x + 1;
      forall y | y in keys ensures y < n {
        assert y != x ==> y in keys - {x};
      }
    }
  }

  lemma InvitingPosts(s: State) returns (more: seq<Label>)
    requires Exclusive(s) && Inviting(s)
    ensures Run(s, more) && Exec(s, more).log == s.log + [Posted(s.clock)]
  {
    if s.lock.Some? {
      var q := s.lock.value;
      more := [Load(q, s.clock)] + [];
      Prepend(s, Load(q, s.clock), []);
    } else {
      var t := Above(s.tasks.Keys);
      more := Posts(s, t, s.clock);
    }
  }

  /** The run can go on so that a POST comes after the event at i and before any save. */
  ghost predicate MayPostUnsaved(s: State, i: nat) {
    exists more :: Run(s, more) && PostsUnsaved(Exec(s, more).log, i)
  }

  /** After a 401 that its caller is done with, and with no save since: a POST can come
      before the next save if and only if that caller died before it had marked the row. */
  lemma SilentAfterRefusal(s: State, current: string, now: real, ls: seq<Label>, i: nat)
    requires Reached(s, current, now, ls) && i + 1 < |s.log| && s.log[i].Rejection?
    requires forall k | i < k < |s.log| :: !s.log[k].Saved?
    ensures MayPostUnsaved(s, i) <==> s.log[i + 1].Unmarked?
  {
    RunKeeps(Init(current, now), ls);
    RunDeathsInvite(Init(current, now), ls);
    if MayPostUnsaved(s, i) {
      var more :| Run(s, more) && PostsUnsaved(Exec(s, more).log, i);
      RunDeathsInvite(s, more);
      Compose(Init(current, now), ls, more);
      SilentUnlessUnmarked(Exec(s, more), current, now, ls + more, i);
    }
    if s.log[i + 1].Unmarked? {
      if Later(s.log, i + 1) {
        var j :| i + 1 < j < |s.log| && (s.log[j].Posted? || s.log[j].Saved?);
        assert PostsUnsaved(s.log, i) && Run(s, []) && Exec(s, []) == s;
      } else {
        var more := InvitingPosts(s);
        var log := Exec(s, more).log;
        assert log[|s.log|].Posted? && forall k | i < k < |s.log| :: log[k] == s.log[k];
        assert PostsUnsaved(log, i);
      }
    }
  }

  ghost predicate PostedAgain(s: State, i: nat) {
    i < |s.log| && s.log[i].Rejection? && PostsUnsaved(s.log, i)
  }

  /** Such a run exists: the caller that got the 401 is cancelled before it has marked the
      row, and the next one presents the rejected token again. */
  lemma RejectedTokenIsPostedAgain()
    ensures exists s: State, ls: seq<Label>, i: nat :: Reached(s, "a", 0.0, ls) && PostedAgain(s, i)
  {
    var s0 := Init("a", 0.0);
    var s1 := DoSave(s0, "a", false);
    var l1 := Posts(s1, 1, 0.0);
    l1 := GoesOn(s1, l1, Exchange(1, 0.0, Refused), Dies(1));
    var s2 := Exec(s1, l1);
    var l2 := Posts(s2, 2, 0.0);
    Compose(s1, l1, l2);
    Prepend(s0, Save("a", false), l1 + l2);
    var s, ls, i: nat := Exec(s2, l2), [Save("a", false)] + (l1 + l2), 2;
    assert s.log == [Saved, Posted(0.0), Rejection, Unmarked, Posted(0.0)];
    assert s.log[4].Posted? && s.log[3].Unmarked?;
    assert PostedAgain(s, i);
    assert Reached(s, "a", 0.0, ls);
  }
}
