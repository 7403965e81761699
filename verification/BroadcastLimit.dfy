/**
 How many subscribers the barrier of the chunk broadcast can stand: its counter is a char.
 */
module BroadcastLimit {
  import opened Options
  import opened Broadcast

  /** With up to n subscribers, add_chunk never returns before everybody in its round has been served. */
  ghost predicate BarrierHolds(n: nat)
  {
    forall tr: seq<State>, k :: Run(tr) && RoundsUpTo(tr, n) && 0 <= k < |tr| && tr[k].leader.Unlock? ==>
      forall x :: 0 <= x < tr[k].round ==> Served(tr[k], x)
  }

  ghost predicate Reaches(n: nat, s: State) { exists tr :: Run(tr) && RoundsUpTo(tr, n) && tr[|tr| - 1] == s }

  lemma Extend(n: nat, s: State, a: Action, s': State)
    requires Reaches(n, s) && Does(s, a, s') && |s'.subs| <= n
    ensures Reaches(n, s')
  {
    hide Does;
    var tr :| Run(tr) && RoundsUpTo(tr, n) && tr[|tr| - 1] == s;
    var tr' := tr + [s'];
    forall i | 0 <= i < |tr'| - 1
      ensures Next(tr'[i], tr'[i + 1])
    {
      assert i < |tr| - 1 ==> Next(tr[i], tr[i + 1]);
    }
    assert Run(tr') && RoundsUpTo(tr', n) && tr'[|tr'| - 1] == s';
  }

  const FRESH := Sub(0, [], 0, false, None)

  // j clients have subscribed.
  function Joined(j: nat): State
  {
    State([], seq(j, i => FRESH), multiset{}, 0, Nobody, Idle, 0, 0, false, false, [Worker(Free, 0, 0, 0)])
  }

  lemma {:induction false} Join(n: nat, j: nat)
    requires j <= n
    ensures Reaches(n, Joined(j))
  {
    if j == 0 {
      var tr := [Joined(0)];
      assert Run(tr) && RoundsUpTo(tr, n) && tr[|tr| - 1] == Joined(0);
    } else {
      Join(n, j - 1);
      assert Joined(j).subs == Joined(j - 1).subs + [FRESH];
      Extend(n, Joined(j - 1), Subscribe, Joined(j));
    }
  }

  // One task for each of the first j subscribers.
  function Below(j: nat): (r: multiset<nat>)
    ensures (forall x: nat :: r[x] == if x < j then 1 else 0) && |r| == j
  {
    if j == 0 then multiset{} else Below(j - 1) + multiset{j - 1}
  }

  // The leader has appended a first chunk and pushed j tasks.
  function Pushed(n: nat, j: nat): State
  {
    Joined(n).(chunks := [[0]], pool := Below(j), flag := ToChar(n), owner := Leader, leader := Push, k := j,
               round := n, accepted := true)
  }

  lemma {:induction false} Pushes(n: nat, j: nat)
    requires j <= n
    ensures Reaches(n, Pushed(n, j))
  {
    if j == 0 {
      Join(n, n);
      var s1 := Joined(n).(leader := LockManager);
      Extend(n, Joined(n), Call, s1);
      var data := Some([0]);
      var s2 := Lead(s1, data);
      Extend(n, s1, LeaderStep(data), s2);
      var s3 := Lead(s2, data);
      Extend(n, s2, LeaderStep(data), s3);
      var s4 := Lead(s3, data);
      Extend(n, s3, LeaderStep(data), s4);
      assert s4 == Pushed(n, 0);
    } else {
      Pushes(n, j - 1);
      var s := Pushed(n, j - 1);
      Extend(n, s, LeaderStep(None), Lead(s, None));
      assert Lead(s, None) == Pushed(n, j);
    }
  }

  // The leader sleeps or has been woken, and the tasks of the first j subscribers are done.
  ghost predicate Waiting(n: nat, j: nat, s: State)
  {
    && (s.leader.Asleep? || s.leader.Relock?) && s.owner.Nobody?
    && s.chunks == [[0]] && s.k == s.round == n && s.flag == ToChar(n) - j
    && |s.subs| == n && (forall x :: j <= x < n ==> s.subs[x] == FRESH)
    && (forall x: nat :: s.pool[x] == if j <= x < n then 1 else 0)
    && |s.workers| == 1 && s.workers[0].pc.Free?
  }

  lemma WorkerActs(n: nat, s: State) returns (s': State)
    requires Reaches(n, s) && |s.workers| == 1 && CanWork(s, 0) && s.workers[0].sub < |s.subs| <= n
    ensures s' == Work(s, 0, 1, true) && Reaches(n, s')
  {
    s' := Work(s, 0, 1, true);
    Extend(n, s, WorkerStep(0, 1, true), s');
  }

  // From its failed send on, the worker counts its task down and wakes the leader.
  lemma CountDown(n: nat, s: State) returns (s': State)
    requires Reaches(n, s) && |s.workers| == 1 && s.workers[0].pc.LockMgr? && s.workers[0].sub < |s.subs| <= n
    requires s.owner.Nobody?
    ensures Reaches(n, s')
    ensures var wk := s.workers[0];
            s' == s.(workers := [wk.(pc := Free)], subs := s.subs[wk.sub := s.subs[wk.sub].(lock := None)],
                     flag := ToChar(s.flag - 1), leader := if s.leader.Asleep? then Relock else s.leader)
  {
    hide Reaches, ToChar;
    s' := WorkerActs(n, s);
    s' := WorkerActs(n, s');
    s' := WorkerActs(n, s');
    s' := WorkerActs(n, s');
    s' := WorkerActs(n, s');
  }

  // The worker does the next task; its connection fails at once.
  lemma Serve(n: nat, j: nat, s: State) returns (s': State)
    requires Reaches(n, s) && Waiting(n, j, s) && j < n && j < ToChar(n)
    ensures Reaches(n, s') && Waiting(n, j + 1, s')
  {
    hide Reaches;
    s' := s.(pool := s.pool - multiset{j}, workers := s.workers[0 := Worker(LockSub, j, 0, 0)]);
    Extend(n, s, TakeTask(0, j), s');
    s' := WorkerActs(n, s');
    s' := WorkerActs(n, s');
    s' := WorkerActs(n, s');
    s' := WorkerActs(n, s');
    s' := CountDown(n, s');
  }

  lemma {:induction false} Serves(n: nat, j: nat) returns (s: State)
    requires 128 <= n && 0 < ToChar(n) && j <= ToChar(n)
    ensures Reaches(n, s) && Waiting(n, j, s)
  {
    if j == 0 {
      Pushes(n, n);
      var s1 := Lead(Pushed(n, n), None);
      Extend(n, Pushed(n, n), LeaderStep(None), s1);
      s := Lead(s1, None);
      Extend(n, s1, LeaderStep(None), s);
    } else {
      s := Serves(n, j - 1);
      s := Serve(n, j - 1, s);
    }
  }

  /** From 128 subscribers on there is a run in which add_chunk returns though the last subscriber of its round
      has neither failed nor taken a byte. */
  lemma ReturnsEarly(n: nat) returns (s: State)
    requires 128 <= n
    ensures Reaches(n, s) && s.leader.Unlock? && s.round == n == |s.subs| && s.subs[n - 1] == FRESH && s.chunks == [[0]]
    ensures s.pool[n - 1] == 1 && s.owner.Leader? && |s.workers| == 1 && s.workers[0].pc.Free?
  {
    var s1: State;
    if ToChar(n) <= 0 {
      Pushes(n, n);
      s1 := Lead(Pushed(n, n), None);
      Extend(n, Pushed(n, n), LeaderStep(None), s1);
    } else {
      var s0 := Serves(n, ToChar(n));
      if s0.leader.Asleep? {
        var s2 := Lead(s0, None);
        Extend(n, s0, LeaderStep(None), s2);
        s0 := s2;
      }
      s1 := Lead(s0, None);
      Extend(n, s0, LeaderStep(None), s1);
    }
    s := Lead(s1, None);
    Extend(n, s1, LeaderStep(None), s);
  }

  /** The barrier is safe exactly up to 127 subscribers. */
  lemma BarrierExact(n: nat)
    ensures BarrierHolds(n) <==> n <= 127
  {
    if n <= 127 {
      forall tr: seq<State>, k | Run(tr) && RoundsUpTo(tr, n) && 0 <= k < |tr| && tr[k].leader.Unlock?
        ensures forall x :: 0 <= x < tr[k].round ==> Served(tr[k], x)
      {
        assert RoundsUpTo(tr, 127);
        BarrierDelivers(tr, k);
      }
    } else {
      var s := ReturnsEarly(n);
      var tr :| Run(tr) && RoundsUpTo(tr, n) && tr[|tr| - 1] == s;
      assert !Served(tr[|tr| - 1], n - 1);
    }
  }
}
