/**
 The cooperative schedulers of lab1/src/7: uthreadpool keeps its threads in a list and always resumes
 the first READY one, uthreadpool2 keeps them in a ring and resumes the next READY one.
 */
module UserThreads {
  import opened Counting

  datatype Status = IDLE | READY | RUNNING | TERMINATED

  /** A task still yields left times before it returns; ran counts the stretches it has run, todo is how many
      there are in all. */
  datatype Task = Task(status: Status, left: nat, ran: nat, todo: nat)

  datatype Version = List | Ring

  /** tasks are in the order of the next pointers, head first; in the ring the first follows the last.
      log lists the positions resumed so far. */
  datatype Sched = Sched(version: Version, tasks: seq<Task>, active: nat, finished: bool, log: seq<nat>)

  function NewTask(k: nat): Task { Task(READY, k, 0, k + 1) }

  // ---------------------------------------------------------------- the two searches

  // The position at distance d from position i among n.
  function At(n: nat, i: nat, d: nat): (p: nat)
    requires i < n && d < n
    ensures p < n
  {
    if i + d < n then i + d else i + d - n
  }

  // The smallest distance from d on, below limit, of a task with status st from position i; limit if there is none.
  function Search(ts: seq<Task>, st: Status, i: nat, d: nat, limit: nat): (r: nat)
    requires i < |ts| && d <= limit <= |ts|
    ensures d <= r <= limit
    ensures r < limit ==> ts[At(|ts|, i, r)].status == st
    ensures forall e :: d <= e < r ==> ts[At(|ts|, i, e)].status != st
    decreases limit - d
  {
    if d == limit then limit
    else if ts[At(|ts|, i, d)].status == st then d
    else Search(ts, st, i, d + 1, limit)
  }

  /** add_to_scheduler: the first IDLE thread is reused. If there is none a new one becomes the head: in the
      list it precedes the old head, in the ring it follows it. */
  function Add(v: Version, ts: seq<Task>, k: nat): seq<Task>
  {
    if ts == [] then [NewTask(k)]
    else
      var d := Search(ts, IDLE, 0, 0, |ts|);
      if d < |ts| then ts[d := NewTask(k)]
      else if v.List? then [NewTask(k)] + ts
      else [NewTask(k)] + ts[1..] + [ts[0]]
  }

  /** usched_yield: the list is searched from the head to its end, the ring from the active thread over
      size - 1 nodes, so that the node just before the active one is never looked at. */
  function Yield(s: Sched): Sched
    requires s.active < |s.tasks|
  {
    var from := if s.version.List? then 0 else s.active;
    var limit := if s.version.List? then |s.tasks| else |s.tasks| - 1;
    var d := Search(s.tasks, READY, from, 0, limit);
    if d == limit then s.(finished := true) else Switch(s, At(|s.tasks|, from, d))
  }

  function Switch(s: Sched, j: nat): Sched
    requires s.active < |s.tasks| && j < |s.tasks|
  {
    var cur := s.tasks[s.active];
    var ts := s.tasks[s.active := cur.(status := if cur.status == TERMINATED then IDLE else READY)];
    s.(tasks := ts[j := ts[j].(status := RUNNING)], active := j, log := s.log + [j])
  }

  // The active task runs up to its next yield, or to its end, where the wrapper yields for it.
  function Stretch(th: Task): Task
  {
    if th.left > 0 then th.(left := th.left - 1, ran := th.ran + 1) else th.(status := TERMINATED, ran := th.ran + 1)
  }

  function Ran(s: Sched): Sched
    requires s.active < |s.tasks|
  {
    s.(tasks := s.tasks[s.active := Stretch(s.tasks[s.active])])
  }

  function Turn(s: Sched): Sched
    requires s.active < |s.tasks|
  {
    Yield(Ran(s))
  }

  predicate HasReady(s: Sched)
  {
    s.tasks != [] && Search(s.tasks, READY, 0, 0, |s.tasks|) < |s.tasks|
  }

  // run_scheduler up to the first switch
  function Start(s: Sched): Sched
    requires HasReady(s)
  {
    var d := Search(s.tasks, READY, 0, 0, |s.tasks|);
    s.(tasks := s.tasks[d := s.tasks[d].(status := RUNNING)], active := d, log := s.log + [d])
  }

  // ---------------------------------------------------------------- what every turn keeps

  function StillToRun(th: Task): nat
  {
    if th.status == IDLE || th.status == TERMINATED then 0 else th.left + 1
  }

  predicate TaskOk(th: Task) { th.ran + StillToRun(th) == th.todo }

  // The thread is the active one, or was when an earlier run ended: no search looks for it.
  predicate Stranded(th: Task) { th.status == RUNNING || th.status == TERMINATED }

  // No task has lost or repeated a stretch.
  ghost predicate Sound(ts: seq<Task>) { forall i :: 0 <= i < |ts| ==> TaskOk(ts[i]) }

  // While a run goes on the active thread is RUNNING.
  ghost predicate Live(s: Sched)
  {
    s.active < |s.tasks| && !s.finished && s.tasks[s.active].status == RUNNING && Sound(s.tasks)
  }

  // After the run: the active thread is left as it was when it found nobody to switch to.
  ghost predicate Over(s: Sched)
  {
    s.active < |s.tasks| && s.finished && Stranded(s.tasks[s.active]) && Sound(s.tasks)
  }

  predicate Complete(th: Task) { th.ran == th.todo }

  // usched_yield either ends the run or switches to a READY task.
  lemma YieldCases(s: Sched)
    requires s.active < |s.tasks| && !s.finished
    ensures Yield(s).finished ==> Yield(s) == s.(finished := true)
    ensures !Yield(s).finished ==>
      Yield(s).active < |s.tasks| && s.tasks[Yield(s).active].status == READY && Yield(s) == Switch(s, Yield(s).active)
  {
  }

  lemma SwitchSum(s: Sched, j: nat)
    requires s.active < |s.tasks| && j < |s.tasks| && s.tasks[j].status == READY && j != s.active
    requires Stranded(s.tasks[s.active])
    ensures Sum(Switch(s, j).tasks, StillToRun) == Sum(s.tasks, StillToRun)
  {
    var cur := s.tasks[s.active];
    var back := cur.(status := if cur.status == TERMINATED then IDLE else READY);
    var ts := s.tasks[s.active := back];
    SumUpdate(s.tasks, s.active, back, StillToRun);
    SumUpdate(ts, j, ts[j].(status := RUNNING), StillToRun);
  }

  lemma TurnKeeps(s: Sched)
    requires Live(s)
    ensures |Turn(s).tasks| == |s.tasks| && (Live(Turn(s)) || Over(Turn(s))) && Turn(s).version == s.version
    ensures Sum(Turn(s).tasks, StillToRun) == Sum(s.tasks, StillToRun) - 1
    ensures Turn(s).finished ==> Turn(s) == Ran(s).(finished := true)
    ensures !Turn(s).finished ==> Turn(s).active != s.active && Turn(s) == Switch(Ran(s), Turn(s).active)
  {
    hide Yield;
    var s1 := Ran(s);
    assert TaskOk(s.tasks[s.active]);
    SumUpdate(s.tasks, s.active, s1.tasks[s.active], StillToRun);
    YieldCases(s1);
    if !Turn(s).finished {
      SwitchSum(s1, Turn(s).active);
    }
  }

  /** The whole run, turn after turn until a yield finds nobody. */
  function Finish(s: Sched): (r: Sched)
    requires Live(s)
    ensures Over(r) && |r.tasks| == |s.tasks| && r.version == s.version && s.log <= r.log
    decreases Sum(s.tasks, StillToRun)
  {
    TurnKeeps(s);
    if Turn(s).finished then Turn(s) else Finish(Turn(s))
  }

  lemma StartLive(s: Sched)
    requires Sound(s.tasks) && HasReady(s) && !s.finished
    ensures Live(Start(s))
  {
    var d := Search(s.tasks, READY, 0, 0, |s.tasks|);
    assert At(|s.tasks|, 0, d) == d;
  }

  /** run_scheduler: nothing after a run without reset_scheduler, nothing without a READY task, else the whole run. */
  function RunAll(s: Sched): (r: Sched)
    requires Sound(s.tasks)
    ensures Sound(r.tasks) && |r.tasks| == |s.tasks| && r.version == s.version
  {
    if s.finished || !HasReady(s) then s
    else
      StartLive(s);
      Finish(Start(s))
  }

  // reset_scheduler
  function Reset(s: Sched): Sched { s.(finished := false) }
}
