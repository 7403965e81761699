/**
 Whole runs of the two schedulers on any tasks: when a run ends, exactly which runs complete all their tasks,
 who waits how long for a turn, and what a run leaves behind.
 */
module UserThreadRuns {
  import opened Counting
  import opened UserThreads

  // ---------------------------------------------------------------- one turn

  // Position i directly precedes position j in the ring.
  predicate JustBefore(s: Sched, i: nat, j: nat)
    requires i < |s.tasks|
  {
    j == if i + 1 < |s.tasks| then i + 1 else 0
  }

  // The active thread looks at i when it yields: in the ring not at the thread just before it.
  predicate Sees(s: Sched, i: nat)
  {
    i < |s.tasks| && i != s.active && (s.version.Ring? ==> !JustBefore(s, i, s.active))
  }

  lemma SearchIs(ts: seq<Task>, st: Status, i: nat, limit: nat, d: nat)
    requires i < |ts| && d <= limit <= |ts|
    requires d < limit ==> ts[At(|ts|, i, d)].status == st
    requires forall e :: 0 <= e < d ==> ts[At(|ts|, i, e)].status != st
    ensures Search(ts, st, i, 0, limit) == d
  {
    var r := Search(ts, st, i, 0, limit);
    assert r < limit ==> ts[At(|ts|, i, r)].status == st;
  }

  // The position at which the distance from i is d, when that is between i and the distance counted on from it.
  function Distance(n: nat, i: nat, j: nat): (d: nat)
    requires i < n && j < n
    ensures d < n && At(n, i, d) == j
  {
    if i <= j then j - i else j + n - i
  }

  /** A turn ends the run if and only if nobody the search looks at is READY: in the ring, nobody at the distances
      1 to size - 2. */
  lemma TurnEnds(s: Sched)
    requires Live(s)
    ensures Turn(s).finished <==> forall i: nat :: Sees(s, i) ==> s.tasks[i].status != READY
  {
    var s1 := Ran(s);
    var from := if s.version.List? then 0 else s.active;
    var limit := if s.version.List? then |s.tasks| else |s.tasks| - 1;
    var d := Search(s1.tasks, READY, from, 0, limit);
    forall i: nat | Sees(s, i) && s.tasks[i].status == READY
      ensures d < limit
    {
      assert s1.tasks[At(|s.tasks|, from, Distance(|s.tasks|, from, i))].status == READY;
    }
    if d < limit {
      var j := At(|s.tasks|, from, d);
      assert Sees(s, j) && s.tasks[j].status == READY;
    }
  }

  // What a turn does to the thread at position i.
  lemma TurnTask(s: Sched, i: nat)
    requires Live(s) && i < |s.tasks|
    ensures |Turn(s).tasks| == |s.tasks|
    ensures i == s.active || !Stranded(s.tasks[i]) ==> i == Turn(s).active || !Stranded(Turn(s).tasks[i])
    ensures i != s.active && s.tasks[i].status != READY ==> Turn(s).tasks[i] == s.tasks[i] && Turn(s).active != i
  {
    hide Yield;
    TurnKeeps(s);
    YieldCases(Ran(s));
  }

  // When a turn ends the run, everybody the search looked at is done, unless an earlier run left him behind.
  lemma LastTurn(s: Sched, i: nat)
    requires Live(s) && Turn(s).finished && Sees(s, i) && !Stranded(s.tasks[i])
    ensures Turn(s).tasks[i].status == IDLE && Complete(Turn(s).tasks[i])
  {
    TurnKeeps(s);
    TurnEnds(s);
    assert TaskOk(s.tasks[i]);
  }

  // ---------------------------------------------------------------- a whole run

  // A thread that takes part in the run.
  predicate TakesPart(s: Sched, i: nat)
  {
    i < |s.tasks| && (i == s.active || !Stranded(s.tasks[i]))
  }

  // What is left of a thread's task.
  function Missing(th: Task): int { th.todo - th.ran }

  // Who is not READY when a run begins stays as he is.
  lemma {:induction false} FinishTask(s: Sched, i: nat)
    requires Live(s) && i < |s.tasks|
    ensures TakesPart(s, i) ==> TakesPart(Finish(s), i)
    ensures i != s.active && s.tasks[i].status != READY ==> Finish(s).tasks[i] == s.tasks[i] && Finish(s).active != i
    decreases Sum(s.tasks, StillToRun)
  {
    hide Turn;
    TurnKeeps(s);
    TurnTask(s, i);
    if !Turn(s).finished {
      FinishTask(Turn(s), i);
    }
  }

  /** The list scheduler ends a run with every task complete but for the active one. */
  lemma {:induction false} ListExit(s: Sched)
    requires Live(s) && s.version.List?
    ensures forall i: nat :: TakesPart(s, i) && i != Finish(s).active ==> Complete(Finish(s).tasks[i])
    decreases Sum(s.tasks, StillToRun)
  {
    hide Turn;
    TurnKeeps(s);
    forall i: nat | TakesPart(s, i) && i != Finish(s).active
      ensures Complete(Finish(s).tasks[i])
    {
      if Turn(s).finished {
        LastTurn(s, i);
      } else {
        TurnTask(s, i);
        ListExit(Turn(s));
      }
    }
  }

  /** The ring scheduler ends a run with every task complete but for the active one and the one just before it. */
  lemma {:induction false} RingExit(s: Sched)
    requires Live(s) && s.version.Ring?
    ensures forall i: nat ::
      TakesPart(s, i) && i != Finish(s).active && !JustBefore(Finish(s), i, Finish(s).active) ==>
        Complete(Finish(s).tasks[i])
    decreases Sum(s.tasks, StillToRun)
  {
    hide Turn;
    TurnKeeps(s);
    forall i: nat | TakesPart(s, i) && i != Finish(s).active && !JustBefore(Finish(s), i, Finish(s).active)
      ensures Complete(Finish(s).tasks[i])
    {
      if Turn(s).finished {
        LastTurn(s, i);
      } else {
        TurnTask(s, i);
        RingExit(Turn(s));
      }
    }
  }

  function RanOf(th: Task): nat { th.ran }

  lemma SwitchRan(s: Sched, j: nat)
    requires s.active < |s.tasks| && j < |s.tasks|
    ensures Sum(Switch(s, j).tasks, RanOf) == Sum(s.tasks, RanOf)
  {
    var cur := s.tasks[s.active];
    var back := cur.(status := if cur.status == TERMINATED then IDLE else READY);
    var ts := s.tasks[s.active := back];
    SumUpdate(s.tasks, s.active, back, RanOf);
    SumUpdate(ts, j, ts[j].(status := RUNNING), RanOf);
  }

  // The log has one entry for each stretch, made when the thread is resumed for it.
  lemma {:induction false} FinishCounts(s: Sched)
    requires Live(s)
    ensures Sum(Finish(s).tasks, RanOf) - Sum(s.tasks, RanOf) == |Finish(s).log| - |s.log| + 1
    decreases Sum(s.tasks, StillToRun)
  {
    hide Turn;
    TurnKeeps(s);
    SumUpdate(s.tasks, s.active, Stretch(s.tasks[s.active]), RanOf);
    if !Turn(s).finished {
      SwitchRan(Ran(s), Turn(s).active);
      FinishCounts(Turn(s));
    }
  }

  /** A run runs exactly as many stretches as it resumes threads. */
  lemma RunCounts(s: Sched)
    requires Sound(s.tasks)
    ensures Sum(RunAll(s).tasks, RanOf) - Sum(s.tasks, RanOf) == |RunAll(s).log| - |s.log|
  {
    if !s.finished && HasReady(s) {
      StartLive(s);
      var d := Start(s).active;
      SumUpdate(s.tasks, d, s.tasks[d].(status := RUNNING), RanOf);
      FinishCounts(Start(s));
    }
  }

  // ---------------------------------------------------------------- what a run leaves behind

  /** A run leaves one more thread behind, the one active at its end: it stays RUNNING or TERMINATED. Those left
      behind before are untouched. */
  lemma LeavesBehind(s: Sched, i: nat)
    requires Sound(s.tasks) && !s.finished && HasReady(s) && i < |s.tasks|
    ensures !Stranded(s.tasks[i]) ==> (Stranded(RunAll(s).tasks[i]) <==> i == RunAll(s).active)
    ensures Stranded(s.tasks[i]) ==> RunAll(s).tasks[i] == s.tasks[i] && i != RunAll(s).active
  {
    StartLive(s);
    var d := Search(s.tasks, READY, 0, 0, |s.tasks|);
    assert At(|s.tasks|, 0, d) == d;
    FinishTask(Start(s), i);
  }

  lemma {:induction false} CountAppend<T>(a: seq<T>, b: seq<T>, p: T -> bool)
    ensures Count(a + b, p) == Count(a, p) + Count(b, p)
  {
    if a == [] {
      assert a + b == b;
    } else {
      CountAppend(a[1..], b, p);
      assert (a + b)[1..] == a[1..] + b;
    }
  }

  // Such a thread is never reused for a task added later.
  lemma AddKeepsStranded(v: Version, ts: seq<Task>, k: nat)
    ensures Count(Add(v, ts, k), Stranded) == Count(ts, Stranded)
    ensures Sound(ts) ==> Sound(Add(v, ts, k))
  {
    if ts != [] {
      var d := Search(ts, IDLE, 0, 0, |ts|);
      if d < |ts| {
        assert At(|ts|, 0, d) == d;
        CountUpdate(ts, d, NewTask(k), Stranded);
      } else {
        CountAppend([NewTask(k)], ts, Stranded);
        CountAppend([NewTask(k)] + ts[1..], [ts[0]], Stranded);
        CountAppend([NewTask(k)], ts[1..], Stranded);
        CountAppend([ts[0]], ts[1..], Stranded);
        assert ts == [ts[0]] + ts[1..];
      }
    }
  }

  /** What add_to_scheduler does: the first IDLE thread gets the new task, with all its yields and stretches to go;
      without one a new thread with that task joins the others. */
  lemma AddGives(v: Version, ts: seq<Task>, k: nat)
    ensures
      var added := Task(READY, k, 0, k + 1);
      if exists i :: 0 <= i < |ts| && ts[i].status == IDLE then
        exists d :: 0 <= d < |ts| && ts[d].status == IDLE && (forall i :: 0 <= i < d ==> ts[i].status != IDLE)
          && Add(v, ts, k) == ts[d := added]
      else
        multiset(Add(v, ts, k)) == multiset(ts) + multiset{added} && Add(v, ts, k)[0] == added
  {
    if ts != [] {
      var d := Search(ts, IDLE, 0, 0, |ts|);
      forall i | 0 <= i < d
        ensures ts[i].status != IDLE
      {
        assert At(|ts|, 0, i) == i;
      }
      if d < |ts| {
        assert At(|ts|, 0, d) == d;
      } else {
        assert ts == [ts[0]] + ts[1..];
      }
    }
  }

  /** A scheduler whose run has ended runs nothing until reset_scheduler; after that it resumes some thread whenever one
      is READY. */
  lemma ResetRuns(s: Sched)
    requires Sound(s.tasks)
    ensures s.finished ==> RunAll(s) == s
    ensures Reset(s).tasks == s.tasks && Reset(s).log == s.log && Reset(s).version == s.version
    ensures HasReady(s) ==> |RunAll(Reset(s)).log| > |s.log| && s.log <= RunAll(Reset(s)).log
  {
    if HasReady(s) {
      StartLive(Reset(s));
    }
  }

  /** With nothing added after reset_scheduler a second run of the list scheduler does nothing, whatever the first
      run left undone. */
  lemma SecondListRun(s: Sched)
    requires Sound(s.tasks) && !s.finished && s.version.List?
    ensures RunAll(Reset(RunAll(s))) == Reset(RunAll(s))
  {
    if HasReady(s) {
      StartLive(s);
      NoneReady(Start(s));
    }
  }

  lemma {:induction false} NoneReady(s: Sched)
    requires Live(s) && s.version.List?
    ensures forall i :: 0 <= i < |Finish(s).tasks| ==> Finish(s).tasks[i].status != READY
    decreases Sum(s.tasks, StillToRun)
  {
    hide Turn;
    TurnKeeps(s);
    if Turn(s).finished {
      TurnEnds(s);
      assert forall i: nat :: i < |s.tasks| && i != s.active ==> Sees(s, i);
    } else {
      NoneReady(Turn(s));
    }
  }

  // ---------------------------------------------------------------- fairness

  // At most m turns, fewer if the run ends.
  function Turns(s: Sched, m: nat): (r: Sched)
    requires Live(s)
    ensures |r.tasks| == |s.tasks| && (Live(r) || Over(r))
    decreases m
  {
    TurnKeeps(s);
    if m == 0 then s else if Turn(s).finished then Turn(s) else Turns(Turn(s), m - 1)
  }

  // Within m turns the thread at position j is resumed.
  ghost predicate RunsWithin(s: Sched, j: nat, m: nat)
    requires Live(s)
  {
    exists e :: 0 < e <= m && Turns(s, e).active == j && !Turns(s, e).finished
  }

  /** The ring is fair: a READY thread d places after the active one is resumed within d switches; only if it is
      just before the active one may the run end first, and then with this very turn. */
  lemma {:induction false} RingFair(s: Sched, j: nat, d: nat)
    requires Live(s) && s.version.Ring? && 0 < d < |s.tasks|
    requires j == At(|s.tasks|, s.active, d) && s.tasks[j].status == READY
    ensures RunsWithin(s, j, d) || (JustBefore(s, j, s.active) && Turn(s).finished)
    decreases d
  {
    TurnKeeps(s);
    var s1, s' := Ran(s), Turn(s);
    var e := Search(s1.tasks, READY, s.active, 0, |s.tasks| - 1);
    assert At(|s1.tasks|, s.active, d) == j && s1.tasks[j].status == READY;
    assert At(|s1.tasks|, s.active, 0) == s.active && s1.tasks[s.active].status != READY;
    if e == |s.tasks| - 1 {
      assert Turn(s).finished;
    } else if e == d {
      assert Turns(s, 1) == Turns(s', 0) == s';
    } else {
      assert j == At(|s'.tasks|, s'.active, d - e) && s'.tasks[j].status == READY;
      RingFair(s', j, d - e);
      assert !JustBefore(s', j, s'.active);
      var m :| 0 < m <= d - e && Turns(s', m).active == j && !Turns(s', m).finished;
      assert Turns(s, m + 1) == Turns(s', m);
    }
  }
}
