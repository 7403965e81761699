/**
 When a call of add_chunk locks the manager's mutex while it holds it already, and so hangs.
 */
module BroadcastHangs {
  import opened Options
  import opened Broadcast
  import opened BroadcastLimit
  import opened BroadcastRound

  /** While rounds begin with at most 127 subscribers, a round hangs if and only if the log refused the data and
      some subscriber had already been sent everything. */
  lemma HangsIff(tr: seq<State>, i: nat)
    requires Run(tr) && RoundsUpTo(tr, 127) && i < |tr| && tr[i].leader.SetFlag?
    ensures Looped(Lead(tr[i], None)).leader.Stuck? <==> !tr[i].accepted && SomeUpToDate(tr[i])
  {
    var s, s' := tr[i], Lead(tr[i], None);
    HangsExactly(tr, i);
    LoopedExactly(s');
    assert forall x :: UpToDate(s', x) <==> UpToDate(s, x);
    if SomeUpToDate(s) {
      var x :| UpToDate(s, x);
      assert UpToDate(s', x);
    }
  }

  lemma {:induction false} LoopReaches(n: nat, s: State)
    requires Reaches(n, s) && s.leader.Push? && s.k <= s.round <= |s.subs| <= n
    ensures Reaches(n, Looped(s)) && Looped(s).accepted == s.accepted && |Looped(s).subs| == |s.subs|
    decreases s.round - s.k
  {
    hide Reaches;
    var s' := Lead(s, None);
    Extend(n, s, LeaderStep(None), s');
    if s'.leader.Push? {
      LoopReaches(n, s');
    }
  }

  lemma LeaderActs(n: nat, s: State, data: Option<seq<Byte>>) returns (s': State)
    requires Reaches(n, s) && CanLead(s) && |s.subs| <= n
    ensures s' == Lead(s, data) && Reaches(n, s')
  {
    s' := Lead(s, data);
    LeadFrame(s, data);
    Extend(n, s, LeaderStep(data), s');
  }

  // The leader's loop finds a subscriber who is up to date.
  lemma LoopHangs(n: nat, s: State, x: nat) returns (s': State)
    requires Reaches(n, s) && s.leader.SetFlag? && UpToDate(s, x) && |s.subs| <= n
    ensures Reaches(n, s') && s'.leader.Stuck? && s'.accepted == s.accepted && |s'.subs| == |s.subs|
  {
    hide Reaches;
    var s1 := LeaderActs(n, s, None);
    assert UpToDate(s1, x);
    LoopReaches(n, s1);
    LoopedExactly(s1);
    s' := Looped(s1);
  }

  // The leader returns and is called again, up to its lock.
  lemma CalledAgain(n: nat, s: State, data: Option<seq<Byte>>) returns (s': State)
    requires Reaches(n, s) && (s.leader.Idle? || s.leader.Unlock?) && |s.subs| <= n
    requires s.owner == if s.leader.Unlock? then Leader else Nobody
    ensures Reaches(n, s')
    ensures s' == s.(owner := Leader, leader := SetFlag, accepted := data.Some?,
                     chunks := if data.Some? then s.chunks + [data.value] else s.chunks)
  {
    hide Reaches;
    var s0 := s;
    if s.leader.Unlock? {
      s0 := LeaderActs(n, s, None);
    }
    var s1 := s0.(leader := LockManager);
    Extend(n, s0, Call, s1);
    var s2 := LeaderActs(n, s1, None);
    s' := LeaderActs(n, s2, data);
  }

  /** The refused append that hangs is reached with any number of subscribers. */
  lemma HangsAfterRefusal(n: nat) returns (s: State)
    requires n >= 1
    ensures Reaches(n, s) && |s.subs| == n && s.leader.Stuck? && !s.accepted
  {
    hide Reaches;
    Join(n, n);
    var s1 := CalledAgain(n, Joined(n), None);
    assert UpToDate(s1, 0);
    s := LoopHangs(n, s1, 0);
  }

  lemma WorkerSends(n: nat, s: State) returns (s': State)
    requires Reaches(n, s) && |s.workers| == 1 && CanWork(s, 0) && s.workers[0].sub < |s.subs| <= n
    ensures s' == Work(s, 0, 1, false) && Reaches(n, s')
  {
    s' := Work(s, 0, 1, false);
    Extend(n, s, WorkerStep(0, 1, false), s');
  }

  // A worker sends both chunks to a subscriber that has none.
  lemma SendsBoth(n: nat, s: State, x: nat) returns (s': State)
    requires Reaches(n, s) && x < |s.subs| <= n && s.subs[x] == FRESH && x in s.pool && s.chunks == [[0], [0]]
    requires |s.workers| == 1 && s.workers[0].pc.Free?
    ensures Reaches(n, s') && UpToDate(s', x) && |s'.subs| == |s.subs|
    ensures s'.leader == s.leader && s'.accepted == s.accepted
  {
    hide Reaches;
    s' := s.(pool := s.pool - multiset{x}, workers := s.workers[0 := Worker(LockSub, x, 0, 0)]);
    Extend(n, s, TakeTask(0, x), s');
    s' := WorkerSends(n, s');
    s' := WorkerSends(n, s');
    s' := WorkerSends(n, s');
    assert s'.workers[0] == Worker(Send, x, 0, 2) && s'.subs[x] == FRESH.(lock := Some(0));
    s' := WorkerSends(n, s');
    s' := WorkerSends(n, s');
    assert s'.workers[0] == Worker(Send, x, 1, 2) && s'.subs[x].loaded == 1 && s'.subs[x].sent == 0;
    s' := WorkerSends(n, s');
    s' := WorkerSends(n, s');
  }

  /** From 128 subscribers on a call hangs though its data was accepted: the round before has ended early, and a
      late worker brings its subscriber up to date before the leader's loop gets to him. */
  lemma HangsAfterAppend(n: nat) returns (s: State)
    requires 128 <= n
    ensures Reaches(n, s) && |s.subs| == n && s.leader.Stuck? && s.accepted
  {
    hide Reaches;
    var s0 := ReturnsEarly(n);
    var s1 := CalledAgain(n, s0, Some([0]));
    var s2 := SendsBoth(n, s1, n - 1);
    s := LoopHangs(n, s2, n - 1);
  }

  /** With up to n subscribers, no call whose data was accepted hangs. */
  ghost predicate AppendsReturn(n: nat)
  {
    forall tr: seq<State>, k :: Run(tr) && RoundsUpTo(tr, n) && 0 <= k < |tr| && tr[k].leader.Stuck? ==> !tr[k].accepted
  }

  /** That holds exactly up to 127 subscribers. */
  lemma HangExact(n: nat)
    ensures AppendsReturn(n) <==> n <= 127
  {
    if n <= 127 {
      forall tr: seq<State>, k | Run(tr) && RoundsUpTo(tr, n) && 0 <= k < |tr| && tr[k].leader.Stuck?
        ensures !tr[k].accepted
      {
        assert RoundsUpTo(tr, 127);
        HangsExactly(tr, k);
      }
    } else {
      var s := HangsAfterAppend(n);
      var tr: seq<State> :| Run(tr) && RoundsUpTo(tr, n) && tr[|tr| - 1] == s;
      assert tr[|tr| - 1].leader.Stuck?;
    }
  }
}
