/**
 The workload of main.c with any number of tasks that all yield equally often: the exact course of its runs under
 both schedulers, and what they complete.
 */
module UserThreadWorkload {
  import opened Counting
  import opened UserThreads
  import opened UserThreadRuns
  import opened UserThreadOutcomes

  // n tasks that yield k times each, none of them run yet: what n calls of add_to_scheduler build.
  function Workload(v: Version, n: nat, k: nat): Sched
  {
    Sched(v, seq(n, _ => NewTask(k)), 0, false, [])
  }

  // A task that yields k times, after ran stretches.
  function TaskAfter(k: nat, ran: nat, active: bool): Task
  {
    Task(if active then RUNNING else if ran > k then IDLE else READY, if ran <= k then k - ran else 0, ran, k + 1)
  }

  // r rounds through n tasks.
  function Laps(n: nat, r: nat): seq<nat>
  {
    if r == 0 then [] else Laps(n, r - 1) + seq(n, i => i)
  }

  function LapTasks(n: nat, k: nat, r: nat, c: nat): (ts: seq<Task>)
    ensures |ts| == n && forall o :: 0 <= o < n ==> ts[o] == TaskAfter(k, if o < c then r + 1 else r, o == c)
  {
    seq(n, o requires 0 <= o < n => TaskAfter(k, if o < c then r + 1 else r, o == c))
  }

  // The ring in round r when it is the turn of task c.
  function Lap(n: nat, k: nat, r: nat, c: nat): Sched
    requires c < n
  {
    Sched(Ring, LapTasks(n, k, r, c), c, false, Laps(n, r) + seq(c + 1, i => i))
  }

  lemma LapLive(n: nat, k: nat, r: nat, c: nat)
    requires c < n && r <= k
    ensures Live(Lap(n, k, r, c))
  {
  }

  // One turn hands over to the next task of the ring, or ends the run after the last round.
  lemma LapTurn(n: nat, k: nat, r: nat, c: nat)
    requires n >= 3 && c < n && r <= k
    ensures c + 1 < n ==> Turn(Lap(n, k, r, c)) == Lap(n, k, r, c + 1)
    ensures c + 1 == n && r < k ==> Turn(Lap(n, k, r, c)) == Lap(n, k, r + 1, 0)
    ensures c + 1 == n && r == k ==> Turn(Lap(n, k, r, c)) == Ran(Lap(n, k, r, c)).(finished := true)
  {
    var s, s1 := Lap(n, k, r, c), Ran(Lap(n, k, r, c));
    var j := At(|s1.tasks|, c, 1);
    assert At(|s1.tasks|, c, 0) == c && s1.tasks[c].status != READY;
    if c + 1 < n || r < k {
      assert s1.tasks[j].status == READY;
      assert Search(s1.tasks, READY, c, 0, n - 1) == Search(s1.tasks, READY, c, 1, n - 1) == 1;
      var s' := if c + 1 < n then Lap(n, k, r, c + 1) else Lap(n, k, r + 1, 0);
      assert Switch(s1, j).tasks == s'.tasks;
      assert Switch(s1, j).log == s'.log;
    }
  }

  lemma {:induction false} LapFinish(n: nat, k: nat, r: nat, c: nat)
    requires n >= 3 && c < n && r <= k
    ensures Live(Lap(n, k, r, c))
    ensures
      var f := Finish(Lap(n, k, r, c));
      f.log == Laps(n, k + 1)
    decreases k - r, n - c
  {
    hide Turn;
    LapLive(n, k, r, c);
    LapTurn(n, k, r, c);
    if c + 1 < n {
      LapFinish(n, k, r, c + 1);
    } else if r < k {
      LapFinish(n, k, r + 1, 0);
    }
  }

  lemma StartWorkload(v: Version, n: nat, k: nat)
    requires n > 0
    ensures var w := Workload(v, n, k); Sound(w.tasks) && !w.finished && HasReady(w) && Live(Start(w))
    ensures Start(Workload(v, n, k)) == Sched(v, LapTasks(n, k, 0, 0), 0, false, [0])
  {
    assert Start(Workload(v, n, k)).tasks == LapTasks(n, k, 0, 0);
  }

  /** With at least three tasks that all yield k times, the ring scheduler runs exactly k + 1 rounds that each
      visit the tasks in ring order. */
  lemma RingRounds(n: nat, k: nat)
    requires n >= 3
    ensures
      var w := Workload(Ring, n, k);
      Sound(w.tasks) && RunAll(w).log == Laps(n, k + 1)
  {
    hide Start, Workload, HasReady, Live;
    StartWorkload(Ring, n, k);
    assert Lap(n, k, 0, 0).log == [0];
    assert Start(Workload(Ring, n, k)) == Lap(n, k, 0, 0);
    LapFinish(n, k, 0, 0);
  }

  lemma WorkloadNeeds(v: Version, n: nat, k: nat)
    ensures var w := Workload(v, n, k); Sound(w.tasks) && |w.tasks| == n && (n > 0 ==> HasReady(w))
    ensures forall i :: 0 <= i < n ==> Need(Workload(v, n, k).tasks[i]) == k + 1
    ensures forall f :: Served(Workload(v, n, k), f) <==> AllComplete(f) && |f.tasks| == n
  {
  }

  lemma WorkloadIs(v: Version, n: nat, k: nat)
    ensures Workload(v, n, k).version == v && !Workload(v, n, k).finished
  {
  }

  ghost predicate AllComplete(s: Sched)
  {
    forall i :: 0 <= i < |s.tasks| ==> Complete(s.tasks[i])
  }

  /** The ring scheduler completes such a workload exactly when its size is not two, nor one with a task that
      yields: for these the search has no node to look at but the active one. */
  lemma RingUniform(n: nat, k: nat)
    requires n > 0
    ensures Sound(Workload(Ring, n, k).tasks)
    ensures AllComplete(RunAll(Workload(Ring, n, k))) <==> n >= 3 || (n == 1 && k == 0)
  {
    hide Workload, RunAll, Served, AllComplete, RoundFits, HasReady, Need;
    WorkloadNeeds(Ring, n, k);
    var w := Workload(Ring, n, k);
    WorkloadIs(Ring, n, k);
    RingCompletes(w);
    if n >= 3 || (n == 1 && k == 0) {
      forall r: nat
        ensures RoundFits(w.tasks, r)
      {
        UniformFits(w.tasks, k, r);
      }
    } else {
      UniformBreaks(w.tasks, k);
    }
  }

  lemma UniformBreaks(o: seq<Task>, k: nat)
    requires |o| == 2 || (|o| == 1 && k > 0)
    requires forall i :: 0 <= i < |o| ==> Need(o[i]) == k + 1
    ensures !RoundFits(o, 0)
  {
    assert forall i :: 0 <= i < |o| ==> In(o, 0, i);
    assert |o| == 1 ==> Last(o, 0, 0) && In(o, 1, 0);
  }

  lemma UniformFits(o: seq<Task>, k: nat, r: nat)
    requires |o| >= 3 || (|o| == 1 && k == 0)
    requires forall i :: 0 <= i < |o| ==> Need(o[i]) == k + 1
    ensures RoundFits(o, r)
  {
    if r <= k {
      assert forall i :: 0 <= i < |o| ==> In(o, r, i);
      forall l | 0 <= l < |o| && Last(o, r, l)
        ensures l == |o| - 1
      {
        assert l + 1 == |o| || In(o, r, l + 1);
      }
      assert r < k ==> In(o, r + 1, 0);
    }
  }

  // The list while tasks m and m + 1 alternate: all before them complete, all after them untouched.
  function DuelTasks(n: nat, k: nat, m: nat, a: nat, b: nat, active: nat): (ts: seq<Task>)
    ensures |ts| == n
    ensures forall o :: 0 <= o < n ==>
      ts[o] == TaskAfter(k, if o < m then k + 1 else if o == m then a else if o == m + 1 then b else 0, o == active)
  {
    seq(n, o requires 0 <= o < n =>
      TaskAfter(k, if o < m then k + 1 else if o == m then a else if o == m + 1 then b else 0, o == active))
  }

  // Tasks m and m + 1 resumed alternately j times each.
  function Rally(m: nat, j: nat): (r: seq<nat>)
    ensures |r| == 2 * j
  {
    if j == 0 then [] else Rally(m, j - 1) + [m, m + 1]
  }

  // The first p pairs, one after the other, each task resumed j times.
  function Rallies(p: nat, j: nat): (r: seq<nat>)
    ensures |r| == 2 * p * j
  {
    if p == 0 then [] else Rallies(p - 1, j) + Rally(2 * (p - 1), j)
  }

  lemma RalliesNext(p: nat, j: nat)
    ensures Rallies(p + 1, j) == Rallies(p, j) + Rally(2 * p, j) && Rally(2 * (p + 1), 0) == []
  {
  }

  // Pair p with j stretches done by each: first the one, then the other is active.
  function Serve(n: nat, k: nat, p: nat, j: nat): Sched
  {
    Sched(List, DuelTasks(n, k, 2 * p, j, j, 2 * p), 2 * p, false, Rallies(p, k + 1) + Rally(2 * p, j) + [2 * p])
  }

  function Return(n: nat, k: nat, p: nat, j: nat): Sched
  {
    Sched(List, DuelTasks(n, k, 2 * p, j + 1, j, 2 * p + 1), 2 * p + 1, false, Rallies(p, k + 1) + Rally(2 * p, j + 1))
  }

  // The search of the list finds position j.
  lemma Finds(s: Sched, d: nat, j: nat)
    requires s.version.List? && d <= j < |s.tasks| && s.tasks[j].status == READY
    requires forall i :: d <= i < j ==> s.tasks[i].status != READY
    ensures Search(s.tasks, READY, 0, d, |s.tasks|) == j
    decreases j - d
  {
  }

  lemma ServeTurn(n: nat, k: nat, p: nat, j: nat)
    requires 2 * p + 1 < n && j <= k
    ensures Live(Serve(n, k, p, j)) && Turn(Serve(n, k, p, j)) == Return(n, k, p, j)
  {
    hide Search, Rallies;
    var s, s' := Serve(n, k, p, j), Return(n, k, p, j);
    Finds(Ran(s), 0, 2 * p + 1);
    assert Switch(Ran(s), 2 * p + 1).tasks == s'.tasks;
    assert Switch(Ran(s), 2 * p + 1).log == s'.log;
  }

  lemma ReturnServe(n: nat, k: nat, p: nat, j: nat)
    requires 2 * p + 1 < n && j < k
    ensures Live(Return(n, k, p, j)) && Turn(Return(n, k, p, j)) == Serve(n, k, p, j + 1)
  {
    hide Search, Rallies;
    var s, s' := Return(n, k, p, j), Serve(n, k, p, j + 1);
    Finds(Ran(s), 0, 2 * p);
    assert Switch(Ran(s), 2 * p).tasks == s'.tasks;
    assert Switch(Ran(s), 2 * p).log == s'.log;
  }

  lemma ReturnOver(n: nat, k: nat, p: nat)
    requires 2 * p + 1 < n
    ensures Live(Return(n, k, p, k))
    ensures 2 * p + 2 < n ==> Turn(Return(n, k, p, k)) == Serve(n, k, p + 1, 0)
    ensures 2 * p + 2 == n ==> Turn(Return(n, k, p, k)) == Ran(Return(n, k, p, k)).(finished := true)
  {
    hide Rallies, Rally;
    var s := Return(n, k, p, k);
    if 2 * p + 2 < n {
      ReturnOn(n, k, p);
    } else {
      assert forall i :: 0 <= i < n ==> Ran(s).tasks[i].status != READY;
    }
  }

  lemma ReturnOn(n: nat, k: nat, p: nat)
    requires 2 * p + 2 < n
    ensures Turn(Return(n, k, p, k)) == Serve(n, k, p + 1, 0)
  {
    RalliesNext(p, k + 1);
    hide Search, Rallies, Rally;
    var s, s' := Return(n, k, p, k), Serve(n, k, p + 1, 0);
    Finds(Ran(s), 0, 2 * p + 2);
    assert Switch(Ran(s), 2 * p + 2).tasks == s'.tasks;
    assert Switch(Ran(s), 2 * p + 2).log == s'.log;
  }

  // An odd task out runs one stretch and finds nobody to yield to.
  lemma LastServe(n: nat, k: nat, p: nat)
    requires 2 * p + 1 == n
    ensures Live(Serve(n, k, p, 0)) && Turn(Serve(n, k, p, 0)) == Ran(Serve(n, k, p, 0)).(finished := true)
  {
    assert forall i :: 0 <= i < n ==> Ran(Serve(n, k, p, 0)).tasks[i].status != READY;
  }

  // The log: whole pairs, and one stretch of an odd task out.
  ghost predicate Paired(n: nat, k: nat, f: Sched)
  {
    f.log == Rallies(n / 2, k + 1) + (if n % 2 == 0 then [] else [n - 1])
  }

  lemma LastPaired(n: nat, k: nat, p: nat)
    ensures 2 * p + 1 == n ==> Paired(n, k, Ran(Serve(n, k, p, 0)).(finished := true))
    ensures 2 * p + 2 == n ==> Paired(n, k, Ran(Return(n, k, p, k)).(finished := true))
  {
  }

  lemma {:induction false} ServeFinish(n: nat, k: nat, p: nat, j: nat)
    requires 2 * p < n && j <= k && (2 * p + 1 == n ==> j == 0)
    ensures Live(Serve(n, k, p, j))
    ensures Paired(n, k, Finish(Serve(n, k, p, j)))
    decreases n - 2 * p, k - j
  {
    hide Turn, Paired, Serve, Return;
    if 2 * p + 1 == n {
      LastServe(n, k, p);
      LastPaired(n, k, p);
    } else {
      ServeTurn(n, k, p, j);
      if j < k {
        ReturnServe(n, k, p, j);
        ServeFinish(n, k, p, j + 1);
      } else {
        ReturnOver(n, k, p);
        LastPaired(n, k, p);
        if 2 * p + 2 < n {
          ServeFinish(n, k, p + 1, 0);
        }
      }
    }
  }

  lemma RallyCount(n: nat, k: nat)
    requires n > 0
    ensures |Rallies(n / 2, k + 1) + (if n % 2 == 0 then [] else [n - 1])| ==
      if n % 2 == 0 then n * (k + 1) else (n - 1) * (k + 1) + 1
  {
    assert 2 * (n / 2) == if n % 2 == 0 then n else n - 1;
  }

  lemma ServeFirst(n: nat, k: nat)
    requires n > 0
    ensures Serve(n, k, 0, 0) == Sched(List, LapTasks(n, k, 0, 0), 0, false, [0])
  {
    assert Serve(n, k, 0, 0).tasks == LapTasks(n, k, 0, 0);
  }

  // With equal needs the fold alternates between all of them and one.
  lemma {:induction false} UniformSurvivor(ts: seq<Task>, k: nat, i: nat, c: Contender)
    requires i <= |ts| && (c.need == k + 1 || c.need == 1) && forall x :: 0 <= x < |ts| ==> Need(ts[x]) == k + 1
    ensures Survivor(ts, i, c).need == if (|ts| - i) % 2 == 0 then c.need else if c.need == 1 then k + 1 else 1
    decreases |ts| - i
  {
    if i < |ts| {
      UniformSurvivor(ts, k, i + 1, Duel(c, Contender(i, k + 1)));
    }
  }

  /** On the list scheduler the tasks pair up: the first two alternate until both are done, then the next two.
      A task without a partner is abandoned at its first yield. So n tasks that yield k times run n * (k + 1)
      stretches if n is even, (n - 1) * (k + 1) + 1 if n is odd, and all are complete exactly if n is even or
      none of them yields. */
  lemma ListPairs(n: nat, k: nat)
    requires n > 0
    ensures
      var w := Workload(List, n, k);
      && Sound(w.tasks) && RunAll(w).log == Rallies(n / 2, k + 1) + (if n % 2 == 0 then [] else [n - 1])
      && Sum(RunAll(w).tasks, RanOf) == (if n % 2 == 0 then n * (k + 1) else (n - 1) * (k + 1) + 1)
      && (AllComplete(RunAll(w)) <==> n % 2 == 0 || k == 0)
  {
    hide Start, Workload, Live, Rallies, Served, AllComplete, Survivor, Need, HasReady;
    StartWorkload(List, n, k);
    ServeFirst(n, k);
    ServeFinish(n, k, 0, 0);
    RallyCount(n, k);
    Counted(List, n, k);
    ListUniform(n, k);
  }

  lemma ListUniform(n: nat, k: nat)
    requires n > 0
    ensures Sound(Workload(List, n, k).tasks)
    ensures AllComplete(RunAll(Workload(List, n, k))) <==> n % 2 == 0 || k == 0
  {
    hide Workload, RunAll, Served, AllComplete, HasReady, Need;
    WorkloadNeeds(List, n, k);
    WorkloadIs(List, n, k);
    var w := Workload(List, n, k);
    ListCompletes(w);
    UniformSurvivor(w.tasks, k, 1, Contender(0, k + 1));
    SurvivorNext(w.tasks, 0, Contender(0, 0));
  }

  // cnt of main.c, which every stretch counts up, is the number of resumptions.
  lemma Counted(v: Version, n: nat, k: nat)
    ensures Sound(Workload(v, n, k).tasks)
    ensures Sum(RunAll(Workload(v, n, k)).tasks, RanOf) == |RunAll(Workload(v, n, k)).log|
  {
    var w := Workload(v, n, k);
    SumConst(w.tasks, RanOf, 0);
    RunCounts(w);
  }

  // The scheduler after n calls of add_to_scheduler.
  function Added(v: Version, n: nat, k: nat): seq<Task>
  {
    if n == 0 then [] else Add(v, Added(v, n - 1, k), k)
  }

  lemma {:induction false} AddedWorkload(v: Version, n: nat, k: nat)
    ensures Added(v, n, k) == Workload(v, n, k).tasks
  {
    if n > 0 {
      AddedWorkload(v, n - 1, k);
      var ts := Added(v, n - 1, k);
      assert ts != [] ==> Search(ts, IDLE, 0, 0, |ts|) == |ts|;
    }
  }
}
