/**
 The worker pool of lab3/src/threadpool: tasks on a stack under one mutex, workers that sleep on one
 condition variable, any number of threads pushing tasks, and the stop that ends the pool.
 */
module ThreadPool {
  import opened Counting
  import opened Options

  datatype Role = Worker | Pusher | Closer

  datatype Pc =
    | Idle        // a pusher or closer outside the pool
    | Lock
    | Test        // while (queue_size == 0 && !stop)
    | Asleep      // inside pthread_cond_wait
    | Relock
    | StopTest    // if (stop)
    | Take        // pop the last task
    | Push        // push a new one
    | Signal      // pthread_cond_signal
    | Raise       // stop = 1
    | Broadcast   // pthread_cond_broadcast
    | Unlock
    | Work        // a worker runs the task it took
    | Leave       // a worker's last unlock
    | Done

  datatype Thread = Thread(role: Role, pc: Pc, task: int)

  /** stack holds the numbers of the queued tasks, the last pushed last; pushed counts the tasks so far, started
      lists those that workers took, ran those whose function has been called and has returned. */
  datatype State = State(stop: bool, size: int, stack: seq<int>, owner: Option<nat>, pushed: nat,
                         started: seq<int>, ran: seq<int>, threads: seq<Thread>)

  // ---------------------------------------------------------------- the steps

  function NextPc(s: State, th: Thread): Pc
  {
    match th.pc
    case Idle => Lock
    case Lock => if th.role.Worker? then Test else if th.role.Pusher? then Push else Raise
    case Test => if s.size == 0 && !s.stop then Asleep else StopTest
    case Asleep => Relock
    case Relock => Test
    case StopTest => if s.stop then Leave else Take
    case Take => Unlock
    case Push => Signal
    case Signal => Unlock
    case Raise => Broadcast
    case Broadcast => Unlock
    case Unlock => if th.role.Worker? then Work else if th.role.Pusher? then Idle else Done
    case Work => Lock
    case Leave => Done
    case Done => Done
  }

  predicate Inside(pc: Pc)
  {
    pc.Test? || pc.StopTest? || pc.Take? || pc.Push? || pc.Signal? || pc.Raise? || pc.Broadcast? || pc.Unlock? ||
      pc.Leave?
  }

  predicate CanStep(s: State, t: nat)
    requires t < |s.threads|
  {
    match s.threads[t].pc
    case Lock => s.owner.None?
    case Relock => s.owner.None?
    case Take => s.stack != []   // task->prev needs a task
    case Done => false
    case _ => true
  }

  predicate Sleeps(th: Thread) { th.pc.Asleep? }

  function Moved(s: State, th: Thread): Thread
  {
    var th' := th.(pc := NextPc(s, th));
    if th.pc.Take? && s.stack != [] then th'.(task := s.stack[|s.stack| - 1]) else th'
  }

  function Woken(th: Thread): Thread { if Sleeps(th) then th.(pc := Relock) else th }

  function WakeAll(ths: seq<Thread>): (r: seq<Thread>)
    ensures |r| == |ths| && forall t :: 0 <= t < |r| ==> r[t] == Woken(ths[t])
  {
    if ths == [] then [] else [Woken(ths[0])] + WakeAll(ths[1..])
  }

  /** One step of thread t; w is the thread that pthread_cond_signal wakes. */
  function Step(s: State, t: nat, w: nat): State
    requires t < |s.threads| && CanStep(s, t)
  {
    var th := s.threads[t];
    var ths := s.threads[t := Moved(s, th)];
    match th.pc
    case Lock => s.(threads := ths, owner := Some(t))
    case Relock => s.(threads := ths, owner := Some(t))
    case Test => s.(threads := ths, owner := if s.size == 0 && !s.stop then None else s.owner)
    case Take =>
      s.(threads := ths, size := s.size - 1, stack := s.stack[..|s.stack| - 1],
      started := s.started + [s.stack[|s.stack| - 1]])
    case Push => s.(threads := ths, size := s.size + 1, stack := s.stack + [s.pushed], pushed := s.pushed + 1)
    case Signal => s.(threads := if w < |ths| then ths[w := Woken(ths[w])] else ths)
    case Raise => s.(threads := ths, stop := true)
    case Broadcast => s.(threads := WakeAll(ths))
    case Unlock => s.(threads := ths, owner := None)
    case Leave => s.(threads := ths, owner := None)
    case Work => s.(threads := ths, ran := s.ran + [th.task])
    case _ => s.(threads := ths)
  }

  ghost predicate MayWake(s: State, w: nat)
  {
    (exists u :: 0 <= u < |s.threads| && Sleeps(s.threads[u])) ==> w < |s.threads| && Sleeps(s.threads[w])
  }

  ghost predicate StepTo(s: State, t: nat, w: nat, s': State)
  {
    t < |s.threads| && CanStep(s, t) && (s.threads[t].pc.Signal? ==> MayWake(s, w)) && s' == Step(s, t, w)
  }

  ghost predicate Next(s: State, s': State) { exists t: nat, w: nat :: StepTo(s, t, w, s') }

  ghost predicate Init(s: State)
  {
    && !s.stop && s.size == 0 && s.stack == [] && s.owner.None? && s.pushed == 0 && s.started == s.ran == []
    && forall t :: 0 <= t < |s.threads| ==> s.threads[t].pc == if s.threads[t].role.Worker? then Lock else Idle
  }

  ghost predicate Run(tr: seq<State>)
  {
    && |tr| > 0 && Init(tr[0])
    && forall i :: 0 <= i < |tr| - 1 ==> Next(tr[i], tr[i + 1])
  }

  // ---------------------------------------------------------------- the invariant

  // A worker that will look at the stack before it sleeps.
  predicate Coming(th: Thread)
  {
    th.role.Worker? && (th.pc.Lock? || th.pc.Relock? || th.pc.Test? || th.pc.StopTest? || th.pc.Take?)
  }

  predicate Signals(th: Thread) { th.pc.Signal? }

  predicate Broadcasts(th: Thread) { th.pc.Broadcast? }

  ghost predicate ThreadOk(s: State, t: int)
    requires 0 <= t < |s.threads|
  {
    var th := s.threads[t];
    && (Inside(th.pc) <==> s.owner == Some(t))
    && (th.pc.Test? || th.pc.Asleep? || th.pc.Relock? || th.pc.StopTest? ==> th.role.Worker?)
    && (th.pc.Take? || th.pc.Work? || th.pc.Leave? ==> th.role.Worker?)
    && (th.pc.Push? || th.pc.Signal? ==> th.role.Pusher?)
    && (th.pc.Raise? || th.pc.Broadcast? ==> th.role.Closer?)
    && (th.pc.Idle? ==> !th.role.Worker?)
    && (th.role.Closer? && (th.pc.Unlock? || th.pc.Done?) ==> s.stop)
    && (th.role.Pusher? ==> !th.pc.Done?)
    && (th.pc.Broadcast? || th.pc.Leave? || (th.pc.Done? && th.role.Worker?) ==> s.stop)
    && (th.pc.StopTest? ==> s.stop || s.size > 0)
    && (th.pc.Take? ==> s.size > 0)
  }

  // Every task pushed is queued or was started, once; the queued ones are in the order of their numbers.
  ghost predicate Stacked(stack: seq<int>, started: seq<int>, pushed: nat)
  {
    && (forall i, j :: 0 <= i < j < |stack| ==> stack[i] < stack[j])
    && (forall i :: 0 <= i < |stack| ==> 0 <= stack[i] < pushed)
    && (forall x :: multiset(stack)[x] + multiset(started)[x] == if 0 <= x < pushed then 1 else 0)
  }

  ghost predicate Tasks(s: State)
  {
    s.size == |s.stack| && Stacked(s.stack, s.started, s.pushed)
  }

  // Unless the pool is stopped, for every queued task there is a worker on its way or a signal still to
  // come, if workers sleep; a stopped pool has no sleepers once the broadcast is out.
  ghost predicate Wakeups(s: State)
  {
    Count(s.threads, Sleeps) > 0 ==>
      if s.stop then Count(s.threads, Broadcasts) > 0
      else s.size <= Count(s.threads, Coming) + Count(s.threads, Signals)
  }

  ghost predicate Inv(s: State)
  {
    && (forall t :: 0 <= t < |s.threads| ==> ThreadOk(s, t))
    && (s.owner.Some? ==> s.owner.value < |s.threads|)
    && Tasks(s) && Wakeups(s)
  }

  lemma InitInv(s: State)
    requires Init(s)
    ensures Inv(s)
  {
    NoneCount(s.threads, Sleeps);
  }

  // Which thread a step wakes by a signal, if any.
  predicate Wakes(s: State, t: nat, w: nat)
    requires t < |s.threads|
  {
    s.threads[t].pc.Signal? && w < |s.threads| && Sleeps(s.threads[w])
  }

  lemma StepThreads(s: State, t: nat, w: nat)
    requires t < |s.threads| && CanStep(s, t) && !s.threads[t].pc.Broadcast?
    ensures
      var ths := s.threads[t := Moved(s, s.threads[t])];
      Step(s, t, w).threads == if Wakes(s, t, w) then ths[w := s.threads[w].(pc := Relock)] else ths
  {
  }

  lemma StepCount(s: State, t: nat, w: nat, p: Thread -> bool)
    requires t < |s.threads| && CanStep(s, t) && !s.threads[t].pc.Broadcast?
    ensures Count(Step(s, t, w).threads, p) == Count(s.threads, p) - I(p(s.threads[t])) + I(p(Moved(s, s.threads[t])))
      + (if Wakes(s, t, w) then I(p(s.threads[w].(pc := Relock))) - I(p(s.threads[w])) else 0)
    ensures p(s.threads[t]) ==> Count(s.threads, p) > 0
  {
    hide Moved, Step;
    StepThreads(s, t, w);
    var ths := s.threads[t := Moved(s, s.threads[t])];
    CountUpdate(s.threads, t, Moved(s, s.threads[t]), p);
    if Wakes(s, t, w) {
      CountUpdate(ths, w, s.threads[w].(pc := Relock), p);
    }
  }

  lemma BroadcastThreadOk(s: State, t: nat, w: nat, u: nat)
    requires Inv(s) && t < |s.threads| && s.threads[t].pc.Broadcast? && u < |s.threads|
    ensures |Step(s, t, w).threads| == |s.threads| && ThreadOk(Step(s, t, w), u)
  {
    assert ThreadOk(s, t) && ThreadOk(s, u);
    hide Wakeups, Tasks, Stacked, WakeAll;
  }

  lemma OwnThreadOk(s: State, t: nat, w: nat)
    requires Inv(s) && t < |s.threads| && CanStep(s, t) && !s.threads[t].pc.Broadcast?
    ensures |Step(s, t, w).threads| == |s.threads| && ThreadOk(Step(s, t, w), t)
  {
    assert ThreadOk(s, t) && s.size == |s.stack|;
    hide Inv, WakeAll;
  }

  lemma StepThreadOk(s: State, t: nat, w: nat, u: nat)
    requires Inv(s) && t < |s.threads| && CanStep(s, t) && u < |s.threads|
    ensures |Step(s, t, w).threads| == |s.threads| && ThreadOk(Step(s, t, w), u)
  {
    if s.threads[t].pc.Broadcast? {
      BroadcastThreadOk(s, t, w, u);
    } else if u == t {
      OwnThreadOk(s, t, w);
    } else {
      assert ThreadOk(s, t) && ThreadOk(s, u) && s.size == |s.stack|;
      hide Inv, WakeAll;
    }
  }

  lemma PopKeeps(stack: seq<int>, started: seq<int>, pushed: nat)
    requires Stacked(stack, started, pushed) && stack != []
    ensures Stacked(stack[..|stack| - 1], started + [stack[|stack| - 1]], pushed)
  {
    var rest, top := stack[..|stack| - 1], stack[|stack| - 1];
    assert stack == rest + [top];
    forall x
      ensures multiset(rest)[x] + multiset(started + [top])[x] == if 0 <= x < pushed then 1 else 0
    {
      assert multiset(stack)[x] + multiset(started)[x] == if 0 <= x < pushed then 1 else 0;
    }
  }

  lemma PushKeeps(stack: seq<int>, started: seq<int>, pushed: nat)
    requires Stacked(stack, started, pushed)
    ensures Stacked(stack + [pushed], started, pushed + 1)
  {
    forall x
      ensures multiset(stack + [pushed])[x] + multiset(started)[x] == if 0 <= x < pushed + 1 then 1 else 0
    {
      assert multiset(stack)[x] + multiset(started)[x] == if 0 <= x < pushed then 1 else 0;
    }
  }

  lemma StepTasks(s: State, t: nat, w: nat)
    requires Inv(s) && t < |s.threads| && CanStep(s, t)
    ensures Tasks(Step(s, t, w))
  {
    hide Wakeups, Moved, WakeAll, ThreadOk, Stacked;
    if s.threads[t].pc.Take? {
      PopKeeps(s.stack, s.started, s.pushed);
    } else if s.threads[t].pc.Push? {
      PushKeeps(s.stack, s.started, s.pushed);
    }
  }

  lemma StepWakeups(s: State, t: nat, w: nat)
    requires Inv(s) && t < |s.threads| && CanStep(s, t) && (s.threads[t].pc.Signal? ==> MayWake(s, w))
    ensures Wakeups(Step(s, t, w))
  {
    hide Tasks;
    assert ThreadOk(s, t);
    if w < |s.threads| {
      assert ThreadOk(s, w);
    }
    if s.threads[t].pc.Broadcast? {
      NoneCount(Step(s, t, w).threads, Sleeps);
    } else {
      StepCount(s, t, w, Sleeps);
      StepCount(s, t, w, Coming);
      StepCount(s, t, w, Signals);
      StepCount(s, t, w, Broadcasts);
      CountWitness(s.threads, Sleeps);
    }
  }

  /** Any step of any thread keeps the invariant. */
  lemma StepInv(s: State, t: nat, w: nat, s': State)
    requires Inv(s) && StepTo(s, t, w, s')
    ensures Inv(s')
  {
    hide Tasks, Wakeups, ThreadOk, CanStep;
    StepTasks(s, t, w);
    StepWakeups(s, t, w);
    forall u | 0 <= u < |s'.threads|
      ensures ThreadOk(s', u)
    {
      StepThreadOk(s, t, w, u);
    }
    StepThreadOk(s, t, w, t);
  }

  lemma {:induction false} RunInv(tr: seq<State>, k: nat)
    requires Run(tr) && k < |tr|
    ensures Inv(tr[k])
  {
    hide Inv, StepTo;
    if k == 0 {
      InitInv(tr[0]);
    } else {
      RunInv(tr, k - 1);
      assert Next(tr[k - 1], tr[k]);
      var t: nat, w: nat :| StepTo(tr[k - 1], t, w, tr[k]);
      StepInv(tr[k - 1], t, w, tr[k]);
    }
  }

  // ---------------------------------------------------------------- what the pool guarantees

  /** In every run each task pushed is either still queued or was started, exactly once; a worker about to take
      a task finds one, and it is the last pushed of those queued. */
  lemma StartedOnce(tr: seq<State>, k: nat, x: int)
    requires Run(tr) && k < |tr|
    ensures multiset(tr[k].stack)[x] + multiset(tr[k].started)[x] == if 0 <= x < tr[k].pushed then 1 else 0
    ensures tr[k].size == |tr[k].stack|
    ensures forall t :: 0 <= t < |tr[k].threads| && tr[k].threads[t].pc.Take? ==>
      tr[k].stack != [] && forall y :: y in tr[k].stack ==> y <= tr[k].stack[|tr[k].stack| - 1]
  {
    RunInv(tr, k);
    forall t | 0 <= t < |tr[k].threads| && tr[k].threads[t].pc.Take?
      ensures tr[k].stack != []
    {
      assert ThreadOk(tr[k], t);
    }
  }

  // The thread is outside, asleep, or gone.
  predicate Resting(th: Thread) { th.pc.Idle? || th.pc.Asleep? || th.pc.Done? }

  predicate Lively(s: State, t: int) { 0 <= t < |s.threads| && !Resting(s.threads[t]) }

  /** No signal is lost: once nobody can go on, a worker sleeps only if no task is queued and the pool has not
      been stopped. And as long as some thread is not resting, some such thread can take a step. */
  lemma NoTaskStranded(tr: seq<State>, k: nat)
    requires Run(tr) && k < |tr|
    ensures (exists t :: 0 <= t < |tr[k].threads| && Sleeps(tr[k].threads[t])) && (forall u :: !Lively(tr[k], u))
      ==> tr[k].stack == [] && !tr[k].stop
    ensures (exists u :: Lively(tr[k], u)) ==> exists u :: Lively(tr[k], u) && CanStep(tr[k], u)
  {
    RunInv(tr, k);
    var s := tr[k];
    if (exists t :: 0 <= t < |s.threads| && Sleeps(s.threads[t])) && (forall u :: !Lively(s, u)) {
      CountWitness(s.threads, Sleeps);
      forall t | 0 <= t < |s.threads|
        ensures !Coming(s.threads[t]) && !Signals(s.threads[t]) && !Broadcasts(s.threads[t])
      {
        assert !Lively(s, t);
      }
      NoneCount(s.threads, Coming);
      NoneCount(s.threads, Signals);
      NoneCount(s.threads, Broadcasts);
    }
    if v :| Lively(s, v) {
      var u: nat := if s.owner.Some? then s.owner.value else v;
      assert ThreadOk(s, u);
      assert CanStep(s, u) && Lively(s, u);
    }
  }

  /** While the pool is not stopped and has a worker, somebody can take a step as long as a task is queued: no
      queued task is stranded among sleeping workers. */
  lemma QueuedTaskMoves(tr: seq<State>, k: nat, t: nat)
    requires Run(tr) && k < |tr| && t < |tr[k].threads| && tr[k].threads[t].role.Worker?
    requires !tr[k].stop && tr[k].stack != []
    ensures exists u :: Lively(tr[k], u) && CanStep(tr[k], u)
  {
    RunInv(tr, k);
    NoTaskStranded(tr, k);
    assert ThreadOk(tr[k], t);
    assert Lively(tr[k], t) || Sleeps(tr[k].threads[t]);
  }

  // How many more of its own steps a worker of a stopped pool takes.
  function StepsLeft(pc: Pc): nat
  {
    match pc
    case Done => 0
    case Leave => 1
    case StopTest => 2
    case Test => 3
    case Lock => 4
    case Relock => 4
    case Asleep => 5
    case Work => 5
    case Unlock => 6
    case Take => 7
    case _ => 0
  }

  // Once stop is raised every step of a worker brings it nearer to its end, and no other step sets it back.
  lemma StopStep(s: State, t: nat, w: nat, s': State, u: nat)
    requires Inv(s) && StepTo(s, t, w, s') && s.stop && u < |s.threads| && s.threads[u].role.Worker?
    ensures s'.stop && |s'.threads| == |s.threads| && s'.threads[u].role.Worker?
    ensures s'.threads[u] == s.threads[u] || StepsLeft(s'.threads[u].pc) < StepsLeft(s.threads[u].pc)
    ensures u == t ==> s'.threads[u] != s.threads[u]
  {
    assert ThreadOk(s, t) && ThreadOk(s, u);
    if !s.threads[t].pc.Broadcast? {
      StepThreads(s, t, w);
    }
    hide Inv, ThreadOk;
  }

  // How often thread u changes its place from i to j, by its own steps or by being woken.
  function Moves(tr: seq<State>, u: nat, i: nat, j: nat): nat
    requires i <= j < |tr| && forall k :: 0 <= k < |tr| ==> u < |tr[k].threads|
    decreases j
  {
    if i == j then 0 else Moves(tr, u, i, j - 1) + if tr[j].threads[u] == tr[j - 1].threads[u] then 0 else 1
  }

  /** In every run a worker takes at most seven more steps once stop is raised, whatever the others do, so that the
      joins of destroy_threadpool return: with NoTaskStranded, no worker is left asleep. */
  lemma {:induction false} WorkersLeave(tr: seq<State>, u: nat, i: nat, j: nat)
    requires Run(tr) && i <= j < |tr| && forall k :: 0 <= k < |tr| ==> u < |tr[k].threads|
    requires tr[i].stop && tr[i].threads[u].role.Worker?
    ensures tr[j].stop && tr[j].threads[u].role.Worker?
    ensures Moves(tr, u, i, j) + StepsLeft(tr[j].threads[u].pc) <= StepsLeft(tr[i].threads[u].pc) <= 7
    decreases j
  {
    hide Inv, StepTo;
    if i < j {
      WorkersLeave(tr, u, i, j - 1);
      RunInv(tr, j - 1);
      assert Next(tr[j - 1], tr[j]);
      var t: nat, w: nat :| StepTo(tr[j - 1], t, w, tr[j]);
      StopStep(tr[j - 1], t, w, tr[j], u);
    }
  }
}
