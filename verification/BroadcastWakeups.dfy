/**
 Whether the broadcast can go on: beyond 127 subscribers flag no longer counts the tasks, but up to 256 in a round it
 cannot put the leader to sleep either; from 257 on it can, for ever.
 */
module BroadcastWakeups {
  import opened Counting
  import opened Options
  import opened Broadcast
  import opened BroadcastStream
  import opened BroadcastLimit
  import opened BroadcastRound
  import opened BroadcastHangs

  // Rounds of more than 127 subscribers have begun: flag has never been positive at the leader's test.
  ghost predicate Overflowed(s: State)
  {
    128 <= |s.subs| && !s.leader.Asleep? && !s.leader.Relock? && (s.leader.Push? || s.leader.Test? ==> s.flag <= 0)
  }

  lemma WorkOverflowed(s: State, w: nat, n: nat, fails: bool)
    requires Overflowed(s) && Held(s) && StreamInv(s) && w < |s.workers| && CanWork(s, w)
    ensures Overflowed(Work(s, w, n, fails))
  {
    assert Serving(s, w);
    WorkShape(s, w, n, fails);
    hide StreamInv, Serving, Work;
  }

  lemma LeadOverflowed(s: State, data: Option<seq<Byte>>)
    requires CanLead(s) && (s.leader.SetFlag? ==> 128 <= |s.subs| <= 256)
    requires Overflowed(s) || s.leader.SetFlag?
    ensures Overflowed(Lead(s, data))
  {
    hide SomeUpToDate;
  }

  // While rounds begin with at most 256 subscribers, either flag counts as it should or it has overflowed.
  lemma {:induction false} CountsOrOverflows(tr: seq<State>, k: nat)
    requires Run(tr) && RoundsUpTo(tr, 256) && k < |tr|
    ensures Inv(tr[k]) || Overflowed(tr[k])
  {
    hide Inv, Does, Overflowed, StreamInv, Held;
    if k == 0 {
      InitInv(tr[0]);
    } else {
      CountsOrOverflows(tr, k - 1);
      RunStream(tr, k - 1);
      RunHeld(tr, k - 1);
      assert Next(tr[k - 1], tr[k]);
      var a :| Does(tr[k - 1], a, tr[k]);
      StepCountsOrOverflows(tr[k - 1], a, tr[k]);
    }
  }

  lemma StepCountsOrOverflows(s: State, a: Action, s': State)
    requires (Inv(s) || Overflowed(s)) && StreamInv(s) && Held(s) && Does(s, a, s')
    requires s.leader.SetFlag? ==> |s.subs| <= 256
    ensures Inv(s') || Overflowed(s')
  {
    hide Inv, StreamInv, Lead, Work, CanWork, CanLead, Held;
    if Inv(s) && (s.leader.SetFlag? && a.LeaderStep? ==> |s.subs| <= 127) {
      StepInv(s, a, s');
    } else if a.LeaderStep? {
      LeadOverflowed(s, a.data);
    } else if a.WorkerStep? {
      WorkOverflowed(s, a.w, a.n, a.fails);
    }
  }

  // A worker with a task can go on, or another one that it waits for can.
  lemma SomeoneWorks(s: State, w: nat)
    requires StreamInv(s) && Held(s) && w < |s.workers| && !s.workers[w].pc.Free? && !LeaderHolds(s.leader)
    ensures exists u :: Works(s, u)
  {
    assert Serving(s, w);
    var x := s.workers[w].sub;
    assert Taken(s, x);
    var u: nat := if s.workers[w].pc.LockSub? && s.subs[x].lock.Some? then s.subs[x].lock.value else w;
    assert Serving(s, u);
    var v: nat := if s.owner.ByWorker? then s.owner.w else u;
    assert Serving(s, v);
    hide Delivered;
    assert Works(s, v) || Works(s, u) || Works(s, w);
  }

  lemma OverflowedGoesOn(s: State)
    requires Overflowed(s) && Held(s) && StreamInv(s) && !s.leader.Idle? && !s.leader.Stuck?
    ensures Progress(s)
  {
    if s.leader.LockManager? && s.owner.ByWorker? {
      SomeoneWorks(s, s.owner.w);
    }
  }

  /** With a worker in the pool, a call of add_chunk that does not hang can always go on, as long as rounds begin with
      at most 256 subscribers. */
  lemma NeverStopped(tr: seq<State>, k: nat)
    requires Run(tr) && RoundsUpTo(tr, 256) && k < |tr| && |tr[k].workers| > 0
    requires !tr[k].leader.Idle? && !tr[k].leader.Stuck?
    ensures Progress(tr[k])
  {
    hide Run, Inv, Overflowed, StreamInv, Progress, Held;
    CountsOrOverflows(tr, k);
    RunStream(tr, k);
    RunHeld(tr, k);
    if Inv(tr[k]) {
      InvGoesOn(tr[k]);
    } else {
      OverflowedGoesOn(tr[k]);
    }
  }

  // ---------------------------------------------------------------- 257 subscribers

  lemma Grow(n: nat, m: nat, s: State)
    requires Reaches(n, s) && n <= m
    ensures Reaches(m, s)
  {
    var tr: seq<State> :| Run(tr) && RoundsUpTo(tr, n) && tr[|tr| - 1] == s;
    assert RoundsUpTo(tr, m);
  }

  lemma {:induction false} JoinMore(n: nat, s: State, j: nat) returns (s': State)
    requires Reaches(n, s) && s.owner.Nobody? && |s.subs| + j <= n
    ensures Reaches(n, s') && s' == s.(subs := s'.subs) && |s'.subs| == |s.subs| + j
    ensures forall x :: 0 <= x < |s'.subs| ==> s'.subs[x] == if x < |s.subs| then s.subs[x] else FRESH
  {
    hide Reaches;
    s' := s;
    if j > 0 {
      s' := JoinMore(n, s, j - 1);
      var s1 := s'.(subs := s'.subs + [FRESH]);
      Extend(n, s', Subscribe, s1);
      s' := s1;
    }
  }

  // The leader waits, one worker is free, and no subscriber has got anything yet.
  ghost predicate Waits(s: State)
  {
    && (s.leader.Asleep? || s.leader.Relock?) && s.owner.Nobody?
    && |s.workers| == 1 && s.workers[0].pc.Free? && s.chunks != [] && s.chunks[0] != []
    && (forall x :: 0 <= x < |s.subs| ==> s.subs[x].loaded == s.subs[x].sent == 0 && s.subs[x].lock.None?)
    && (forall x :: x in s.pool ==> x < |s.subs|)
  }

  // The worker does a task; its connection fails at once.
  lemma DoTask(n: nat, s: State, x: nat) returns (s': State)
    requires Reaches(n, s) && Waits(s) && x in s.pool && |s.subs| <= n
    ensures Reaches(n, s') && Waits(s') && s'.pool == s.pool - multiset{x} && s'.flag == ToChar(s.flag - 1)
    ensures |s'.subs| == |s.subs|
  {
    hide Reaches, ToChar;
    s' := s.(pool := s.pool - multiset{x}, workers := s.workers[0 := Worker(LockSub, x, 0, 0)]);
    Extend(n, s, TakeTask(0, x), s');
    s' := WorkerActs(n, s');
    s' := WorkerActs(n, s');
    s' := WorkerActs(n, s');
    s' := WorkerActs(n, s');
    s' := CountDown(n, s');
  }

  lemma {:induction false} DoTasks(n: nat, s: State) returns (s': State)
    requires Reaches(n, s) && Waits(s) && |s.subs| <= n && ToChar(s.flag) == s.flag
    ensures Reaches(n, s') && Waits(s') && s'.pool == multiset{} && s'.flag == ToChar(s.flag - |s.pool|)
    ensures |s'.subs| == |s.subs|
    decreases |s.pool|
  {
    hide Reaches, Waits;
    s' := s;
    if s.pool != multiset{} {
      var x :| x in s.pool;
      var s1 := DoTask(n, s, x);
      assert |s1.pool| == |s.pool| - 1;
      s' := DoTasks(n, s1);
    }
  }

  // Nobody has got anything yet, and one worker is free.
  ghost predicate Untouched(s: State, n: nat)
  {
    && |s.subs| == n && (forall x :: 0 <= x < n ==> s.subs[x] == FRESH)
    && |s.workers| == 1 && s.workers[0].pc.Free?
  }

  // A round of 129 returns at once.
  lemma ReturnsAtOnce() returns (s: State)
    ensures Reaches(257, s) && Untouched(s, 129) && s.leader.Idle? && s.owner.Nobody?
    ensures s.pool == Below(129) && s.chunks == [[0]]
  {
    hide Reaches, Below;
    Pushes(129, 129);
    Grow(129, 257, Pushed(129, 129));
    s := LeaderActs(257, Pushed(129, 129), None);
    s := LeaderActs(257, s, None);
    s := LeaderActs(257, s, None);
  }

  // 128 more subscribe, and the next round begins.
  lemma BeginsBigRound() returns (s: State)
    ensures Reaches(257, s) && Untouched(s, 257) && s.leader.Push? && s.owner.Leader?
    ensures s.k == 0 && s.round == 257 && s.flag == 1 && s.pool == Below(129) && s.chunks == [[0], [0]]
  {
    hide Reaches, Below;
    s := ReturnsAtOnce();
    s := JoinMore(257, s, 128);
    s := CalledAgain(257, s, Some([0]));
    s := LeaderActs(257, s, None);
  }

  // The leader waits for the tasks of both rounds.
  lemma WaitsForAll() returns (s: State)
    ensures Reaches(257, s) && Waits(s) && |s.subs| == 257 && s.flag == 1 && |s.pool| == 129 + 257
  {
    hide Reaches, Below, Lead, Waits;
    var s0 := BeginsBigRound();
    LoopReaches(257, s0);
    LoopedExactly(s0);
    var s1 := Looped(s0);
    assert Behind(s0, 0, 257);
    assert s1.pool == Below(129) + Below(257);
    s := LeaderActs(257, s1, None);
    Sleeps(s1);
    WaitsAll(s);
  }

  lemma Sleeps(s: State)
    requires s.leader.Test? && s.flag > 0
    ensures Lead(s, None) == s.(owner := Nobody, leader := Asleep)
  {
  }

  lemma WaitsAll(s: State)
    requires s.leader.Asleep? && s.owner.Nobody? && Untouched(s, 257) && s.chunks == [[0], [0]]
    requires s.pool == Below(129) + Below(257)
    ensures Waits(s)
  {
    hide Below;
    forall x | x in s.pool
      ensures x < 257
    {
      assert s.pool[x] == Below(129)[x] + Below(257)[x];
    }
  }

  /** With 257 subscribers there is a run after which the leader sleeps for ever: no task is left, no worker has
      anything to do, and flag is 127. */
  lemma SleepsForEver() returns (s: State)
    ensures Reaches(257, s) && |s.subs| == 257 && |s.workers| > 0 && s.leader.Asleep? && s.flag == 127 && !Progress(s)
  {
    hide Reaches;
    var s0 := WaitsForAll();
    s := DoTasks(257, s0);
    assert s.flag == 127;
    if s.leader.Relock? {
      s := LeaderActs(257, s, None);
      s := LeaderActs(257, s, None);
    }
  }

  // add_chunk has been called and does not hang, and the pool has a worker.
  predicate Called(s: State) { |s.workers| > 0 && !s.leader.Idle? && !s.leader.Stuck? }

  /** While rounds begin with up to n subscribers, a call that does not hang can always go on. */
  ghost predicate CallsGoOn(n: nat)
  {
    forall tr: seq<State>, k ::
      Run(tr) && RoundsUpTo(tr, n) && 0 <= k < |tr| && Called(tr[k]) ==> Progress(tr[k])
  }

  /** That holds exactly up to 256 subscribers. */
  lemma GoesOnExactly(n: nat)
    ensures CallsGoOn(n) <==> n <= 256
  {
    if n <= 256 {
      forall tr: seq<State>, k | Run(tr) && RoundsUpTo(tr, n) && 0 <= k < |tr| && Called(tr[k])
        ensures Progress(tr[k])
      {
        assert RoundsUpTo(tr, 256);
        NeverStopped(tr, k);
      }
    } else {
      var s := SleepsForEver();
      Grow(257, n, s);
      var tr: seq<State> :| Run(tr) && RoundsUpTo(tr, n) && tr[|tr| - 1] == s;
      assert !Progress(tr[|tr| - 1]);
    }
  }
}
