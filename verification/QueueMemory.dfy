/**
 The linked queue of lab2/src/2 in memory, and the steps of QueueProtocol carried out on it.
 */
module QueueMemory {
  import opened Counting
  import opened Options
  import opened QueueProtocol

  class QNode {
    var val: int
    var next: QNode?

    constructor (val: int)
      ensures this.val == val && next == null
    {
      this.val := val;
      next := null;
    }
  }

  class Queue {
    var first: QNode?
    var last: QNode?     // left behind, pointing at a freed node, when the queue runs empty
    const max: nat
    var count: int
    var addAttempts: nat
    var getAttempts: nat
    var addCount: nat
    var getCount: nat
    ghost var nodes: seq<QNode>

    // The nodes are linked from first to last; of an empty queue only first is meaningful.
    ghost predicate Linked()
      reads `first, `last, `nodes, nodes
    {
      && (forall i, j :: 0 <= i < j < |nodes| ==> nodes[i] != nodes[j])
      && (forall i {:trigger nodes[i].next} :: 0 <= i < |nodes| ==>
          nodes[i].next == if i + 1 < |nodes| then nodes[i + 1] else null)
      && first == (if nodes == [] then null else nodes[0])
      && (nodes != [] ==> last == nodes[|nodes| - 1])
    }

    ghost function Contents(): (c: seq<int>)
      reads `nodes, nodes
      ensures |c| == |nodes| && forall i :: 0 <= i < |c| ==> c[i] == nodes[i].val
    {
      var ns := nodes;
      seq(|ns|, i requires 0 <= i < |ns| reads ns => ns[i].val)
    }

    // Between two critical sections.
    ghost predicate Settled()
      reads this, nodes
    {
      Linked() && count == |nodes| <= max && addCount - getCount == count
    }

    constructor (max: nat)
      ensures Settled() && Contents() == [] && this.max == max && nodes == []
      ensures addAttempts == getAttempts == addCount == getCount == 0
    {
      first, last, nodes := null, null, [];
      this.max, count := max, 0;
      addAttempts, getAttempts, addCount, getCount := 0, 0, 0, 0;
    }

    method LinkIn(val: int)
      requires Linked()
      modifies `first, `last, `nodes, nodes
      ensures Linked() && Contents() == old(Contents()) + [val]
      ensures |nodes| == old(|nodes|) + 1 && nodes[..old(|nodes|)] == old(nodes) && fresh(nodes[old(|nodes|)])
    {
      var node := new QNode(val);
      if first == null {
        first, last := node, node;
      } else {
        last.next := node;
        last := last.next;
      }
      nodes := nodes + [node];
    }

    method TakeOut() returns (val: int)
      requires Linked() && nodes != []
      modifies `first, `nodes
      ensures Linked() && old(Contents()) == [val] + Contents() && nodes == old(nodes)[1..]
    {
      var tmp := first;
      assert tmp == nodes[0];
      val := tmp.val;
      first := first.next;
      nodes := nodes[1..];
      assert forall i :: 0 <= i < |nodes| ==> nodes[i] == old(nodes)[i + 1];
    }

    /** queue_add of queue_mutex and queue_spinlock, under the lock. */
    method Add(val: int) returns (ok: bool)
      requires Settled()
      modifies this, nodes
      ensures Settled() && ok == (old(|Contents()|) < max)
      ensures Contents() == if ok then old(Contents()) + [val] else old(Contents())
      ensures addAttempts == old(addAttempts) + 1 && addCount == old(addCount) + (if ok then 1 else 0)
      ensures getAttempts == old(getAttempts) && getCount == old(getCount)
    {
      hide Linked;
      addAttempts := addAttempts + 1;
      if count == max {
        return false;
      }
      LinkIn(val);
      count := count + 1;
      addCount := addCount + 1;
      return true;
    }

    /** queue_get of queue_mutex and queue_spinlock, under the lock. */
    method Get() returns (ok: bool, val: int)
      requires Settled()
      modifies this, nodes
      ensures Settled() && ok == (old(Contents()) != [])
      ensures if ok then old(Contents()) == [val] + Contents() else Contents() == old(Contents())
      ensures getAttempts == old(getAttempts) + 1 && getCount == old(getCount) + (if ok then 1 else 0)
      ensures addAttempts == old(addAttempts) && addCount == old(addCount)
    {
      hide Linked;
      val := -1;
      getAttempts := getAttempts + 1;
      if count == 0 {
        return false, val;
      }
      val := TakeOut();
      count := count - 1;
      getCount := getCount + 1;
      ok := true;
    }
  }

  /** A queue with its lock, condition variables or semaphores, and the threads that use it. */
  class Machine {
    const kind: Kind
    const queue: Queue
    var owner: Option<nat>
    var empty: int
    var full: int
    var broken: bool
    var error: bool
    var threads: seq<Thread>
    ghost var added: seq<int>
    ghost var taken: seq<int>

    ghost predicate Valid()
      reads this, queue, queue.nodes
    {
      queue.Linked()
    }

    ghost function View(): State
      reads this, queue, queue.nodes
    {
      State(kind, queue.max, queue.Contents(), queue.count, owner, empty, full, added, taken, broken, error, threads)
    }

    // queue_init, and main's threads.
    constructor (kind: Kind, max: nat, roles: seq<Role>)
      ensures Valid() && Init(View()) && View().kind == kind && View().max == max
      ensures |threads| == |roles| && forall t :: 0 <= t < |roles| ==> threads[t].role == roles[t]
    {
      this.kind := kind;
      queue := new Queue(max);
      owner, empty, full := None, max, 0;
      broken, error, added, taken := false, false, [], [];
      threads := seq(|roles|, t requires 0 <= t < |roles| => Thread(roles[t], Idle, 0, -1));
    }

    method Go(t: nat)
      requires t < |threads| && !Takes(threads[t]) && !threads[t].pc.Unlock?
      modifies this`threads
      ensures threads == old(threads)[t := Moved(old(View()), old(threads)[t])]
    {
      var th := threads[t];
      var noRoom := queue.count == if th.role.Writer? then queue.max else 0;
      var pc :=
        match th.pc
        case Idle => if kind.Semaphore? then SemWait else Lock
        case Lock => if kind.Semaphore? then Link else if kind.Condvar? then Test else Check
        case Test => if noRoom then Asleep else Check
        case Check => if noRoom then Refuse else Link
        case Count => if kind.Locked? then Unlock else Notify
        case SemWait => Lock
        case Asleep => Relock
        case Relock => Test
        case Link => Count
        case Notify => Unlock
        case _ => Idle;
      threads := threads[t := th.(pc := pc)];
    }

    // The list changes: a writer links its node in, a reader takes the first one out.
    method LinkStep(t: nat)
      requires Valid() && t < |threads| && threads[t].pc.Link? && (threads[t].role.Reader? ==> queue.nodes != [])
      modifies `threads, `added, `taken, queue`first, queue`last, queue`nodes, queue.nodes
      ensures Valid() && threads == old(threads)[t := Moved(old(View()), old(threads)[t])]
      ensures
        if old(threads)[t].role.Writer? then
          && queue.Contents() == old(queue.Contents()) + [old(threads)[t].n]
          && added == old(added) + [old(threads)[t].n] && taken == old(taken)
        else
          && old(queue.Contents()) == [old(queue.Contents())[0]] + queue.Contents()
          && taken == old(taken) + [old(queue.Contents())[0]] && added == old(added)
    {
      hide queue.Linked, queue.Contents;
      var th := threads[t];
      if th.role.Writer? {
        queue.LinkIn(th.n);
        added := added + [th.n];
        threads := threads[t := th.(pc := Count)];
      } else {
        var val := queue.TakeOut();
        taken := taken + [val];
        threads := threads[t := th.(pc := Count, val := val)];
      }
    }

    // pthread_cond_signal or sem_post
    method NotifyStep(t: nat, w: nat)
      requires t < |threads| && threads[t].pc.Notify?
      modifies this
      ensures View() == Step(old(View()), t, w)
    {
      var th := threads[t];
      Go(t);
      if kind.Semaphore? {
        if th.role.Writer? {
          full := full + 1;
        } else {
          empty := empty + 1;
        }
      } else if w < |threads| && Wakes(threads[w], th.role) {
        threads := threads[w := threads[w].(pc := Relock)];
      }
    }

    // The unlock, and what the client does with a success.
    method LeaveStep(t: nat)
      requires t < |threads| && threads[t].pc.Unlock?
      modifies this
      ensures View() == Step(old(View()), t, 0)
    {
      var th := threads[t];
      owner := None;
      if th.role.Writer? {
        threads := threads[t := th.(pc := Idle, n := th.n + 1)];
      } else {
        if th.n != th.val {
          error := true;
        }
        threads := threads[t := th.(pc := Idle, n := th.val + 1)];
      }
    }

    /** The next statement of thread t, which is not blocked. w is the thread a signal wakes. */
    method Act(t: nat, w: nat)
      requires Valid() && t < |threads| && CanStep(View(), t)
      modifies this, queue, queue.nodes
      ensures Valid() && View() == Step(old(View()), t, w)
    {
      hide queue.Linked;
      var th := threads[t];
      if th.pc.Link? {
        LinkStep(t);
      } else if th.pc.Notify? {
        NotifyStep(t, w);
      } else if th.pc.Unlock? {
        LeaveStep(t);
      } else {
        Go(t);
        Shared(t, th);
      }
    }

    // What the remaining statements of a thread, which was th before, change besides its own program point.
    method Shared(t: nat, th: Thread)
      requires t < |threads| && !th.pc.Link? && !th.pc.Notify? && !th.pc.Unlock?
      modifies this, queue`count
      ensures threads == old(threads) && added == old(added) && taken == old(taken) && error == old(error)
      ensures empty == old(empty) - I(th.pc.SemWait? && th.role.Writer?)
      ensures full == old(full) - I(th.pc.SemWait? && th.role.Reader?)
      ensures queue.count == old(queue.count) + I(th.pc.Count? && th.role.Writer?) - I(th.pc.Count? && th.role.Reader?)
      ensures owner == if th.pc.Lock? || th.pc.Relock? then Some(t)
                       else if th.pc.Refuse? || (th.pc.Test? && NoRoom(old(View()), th.role)) then None
                       else old(owner)
      ensures broken ==
        (old(broken) || ((th.pc.Check? || (th.pc.Idle? && kind.Semaphore?)) && !AssertHolds(old(View()), th.role)))
    {
      match th.pc {
        case Idle =>
          if kind.Semaphore? {
            broken := broken || (if th.role.Writer? then queue.count > queue.max else queue.count < 0);
          }
        case SemWait =>
          if th.role.Writer? {
            empty := empty - 1;
          } else {
            full := full - 1;
          }
        case Lock => owner := Some(t);
        case Relock => owner := Some(t);
        case Test =>
          if queue.count == if th.role.Writer? then queue.max else 0 {
            owner := None;   // pthread_cond_wait releases the mutex
          }
        case Check => broken := broken || (if th.role.Writer? then queue.count > queue.max else queue.count < 0);
        case Count => queue.count := if th.role.Writer? then queue.count + 1 else queue.count - 1;
        case Refuse => owner := None;
        case _ =>
      }
    }
  }
}
