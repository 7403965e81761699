/**
 The pool in memory: task nodes chained by prev from the last pushed, and the steps of ThreadPool
 carried out on them.
 */
module ThreadPoolMemory {
  import opened Options
  import opened ThreadPool

  class TaskNode {
    const id: int
    var next: TaskNode?
    const prev: TaskNode?

    constructor (id: int, prev: TaskNode?)
      ensures this.id == id && this.prev == prev && next == null
    {
      this.id := id;
      this.prev := prev;
      next := null;
    }
  }

  class Pool {
    var queueSize: int
    var stop: bool
    var idSequence: nat
    var lastTask: TaskNode?
    var owner: Option<nat>
    var threads: seq<Thread>
    ghost var tasks: seq<TaskNode>    // the queued tasks, first pushed first
    ghost var started: seq<int>
    var ran: seq<int>                 // the tasks whose function has been called

    // The chain of prev pointers from lastTask is the queued tasks, last pushed first.
    ghost predicate Chained()
      reads `lastTask, `tasks
    {
      && lastTask == (if tasks == [] then null else tasks[|tasks| - 1])
      && (forall i {:trigger tasks[i].prev} :: 0 <= i < |tasks| ==>
          tasks[i].prev == if i == 0 then null else tasks[i - 1])
    }

    ghost function Ids(): (ids: seq<int>)
      reads `tasks
      ensures |ids| == |tasks| && forall i :: 0 <= i < |ids| ==> ids[i] == tasks[i].id
    {
      var ts := tasks;
      seq(|ts|, i requires 0 <= i < |ts| => ts[i].id)
    }

    ghost function View(): State
      reads this
    {
      State(stop, queueSize, Ids(), owner, idSequence, started, ran, threads)
    }

    // init_threadpool, and the threads that will push and close.
    constructor (roles: seq<Role>)
      ensures Chained() && Init(View()) && |threads| == |roles|
      ensures forall t :: 0 <= t < |roles| ==> threads[t].role == roles[t]
    {
      queueSize, stop, idSequence, lastTask, owner := 0, false, 0, null, None;
      threads := seq(|roles|, t requires 0 <= t < |roles| =>
        Thread(roles[t], if roles[t].Worker? then Lock else Idle, -1));
      tasks, started, ran := [], [], [];
    }

    // threadpool_push_task, under the mutex
    method PushTask()
      requires Chained()
      modifies `lastTask, `queueSize, `idSequence, `tasks, lastTask
      ensures Chained() && Ids() == old(Ids()) + [old(idSequence)]
      ensures queueSize == old(queueSize) + 1 && idSequence == old(idSequence) + 1
    {
      var node := new TaskNode(idSequence, lastTask);
      idSequence := idSequence + 1;
      if lastTask != null {
        lastTask.next := node;
      }
      lastTask := node;
      tasks := tasks + [node];
      queueSize := queueSize + 1;
    }

    // worker takes the last task
    method TakeTask() returns (id: int)
      requires Chained() && tasks != []
      modifies `lastTask, `queueSize, `tasks
      ensures Chained() && old(Ids()) == Ids() + [id]
      ensures queueSize == old(queueSize) - 1
    {
      hide Ids;
      var task := lastTask;
      id := task.id;
      queueSize := queueSize - 1;
      assert task == tasks[|tasks| - 1];
      lastTask := task.prev;
      tasks := tasks[..|tasks| - 1];
      assert forall i :: 0 <= i < |tasks| ==> tasks[i] == old(tasks)[i];
    }

    method Broadcast()
      modifies `threads
      ensures threads == WakeAll(old(threads))
    {
      var i := 0;
      while i < |threads|
        invariant 0 <= i <= |threads| == |old(threads)|
        invariant forall u :: 0 <= u < |threads| ==>
            threads[u] == if u < i then Woken(old(threads)[u]) else old(threads)[u]
      {
        threads := threads[i := Woken(threads[i])];
        i := i + 1;
      }
    }

    /** The next statement of thread t, which is not blocked; w is the worker a signal wakes. */
    method Act(t: nat, w: nat)
      requires Chained() && t < |threads| && CanStep(View(), t)
      modifies this, lastTask
      ensures Chained() && View() == Step(old(View()), t, w)
    {
      hide Chained, Ids, Step, CanStep, WakeAll;
      var pc := threads[t].pc;
      if pc.Take? || pc.Push? || pc.Signal? || pc.Broadcast? || pc.Work? {
        Tasks(t, w);
      } else {
        Moves(t, w);
      }
    }

    // The statements that touch the stack, run a task or wake workers.
    method Tasks(t: nat, w: nat)
      requires Chained() && t < |threads| && CanStep(View(), t)
      requires
        var pc := threads[t].pc;
        pc.Take? || pc.Push? || pc.Signal? || pc.Broadcast? || pc.Work?
      modifies this, lastTask
      ensures Chained() && View() == Step(old(View()), t, w)
    {
      hide Chained, Ids, WakeAll;
      var th := threads[t];
      match th.pc {
        case Take =>
          var id := TakeTask();
          started := started + [id];
          threads := threads[t := th.(pc := Unlock, task := id)];
        case Push =>
          PushTask();
          Goto(t, Signal);
        case Signal =>
          Goto(t, Unlock);
          if w < |threads| && threads[w].pc.Asleep? {
            Goto(w, Relock);
          }
        case Broadcast =>
          Goto(t, Unlock);
          Broadcast();
        case Work =>
          ran := ran + [th.task];   // task->function(task->argument)
          Goto(t, Lock);
      }
    }

    // The others: the lock, the tests and the waiting.
    method Moves(t: nat, w: nat)
      requires Chained() && t < |threads| && CanStep(View(), t)
      requires
        var pc := threads[t].pc;
        !pc.Take? && !pc.Push? && !pc.Signal? && !pc.Broadcast? && !pc.Work?
      modifies `owner, `stop, `threads
      ensures Chained() && View() == Step(old(View()), t, w)
    {
      hide Chained, Ids, WakeAll;
      var th := threads[t];
      match th.pc {
        case Idle => Goto(t, Lock);
        case Lock =>
          owner := Some(t);
          Goto(t, if th.role.Worker? then Test else if th.role.Pusher? then Push else Raise);
        case Relock =>
          owner := Some(t);
          Goto(t, Test);
        case Test =>
          if queueSize == 0 && !stop {
            owner := None;   // pthread_cond_wait releases the mutex
            Goto(t, Asleep);
          } else {
            Goto(t, StopTest);
          }
        case Asleep => Goto(t, Relock);
        case StopTest => Goto(t, if stop then Leave else Take);
        case Raise =>
          stop := true;
          Goto(t, Pc.Broadcast);
        case Unlock =>
          owner := None;
          Goto(t, if th.role.Worker? then Work else if th.role.Pusher? then Idle else Done);
        case Leave =>
          owner := None;
          Goto(t, Done);
      }
    }

    method Goto(t: nat, pc: Pc)
      requires t < |threads|
      modifies `threads
      ensures threads == old(threads)[t := old(threads)[t].(pc := pc)]
    {
      threads := threads[t := threads[t].(pc := pc)];
    }
  }
}
