/**
 The schedulers in memory: nodes linked to a list or a ring, searched by walking next, and switched by
 writing status. View is the scheduler of UserThreads that the memory stands for.
 */
module UserThreadMemory {
  import opened UserThreads
  import opened Counting

  class UNode {
    var next: UNode?
    var prev: UNode?
    var task: Task

    constructor (k: nat)
      ensures task == NewTask(k) && next == null && prev == null
    {
      task := NewTask(k);
      next, prev := null, null;
    }
  }

  // The node after position i: none after the last of a list, the head after the last of a ring.
  function After(v: Version, nodes: seq<UNode>, i: int): UNode?
    requires 0 <= i < |nodes|
  {
    if i + 1 < |nodes| then nodes[i + 1] else if v.List? then null else nodes[0]
  }

  function Before(v: Version, nodes: seq<UNode>, i: int): UNode?
    requires 0 <= i < |nodes|
  {
    if i > 0 then nodes[i - 1] else if v.List? then null else nodes[|nodes| - 1]
  }

  lemma YieldIs(s: Sched, d: nat)
    requires s.active < |s.tasks|
    requires d ==
      if s.version.List? then Search(s.tasks, READY, 0, 0, |s.tasks|)
      else Search(s.tasks, READY, s.active, 0, |s.tasks| - 1)
    ensures
      if d >= |s.tasks| - (if s.version.List? then 0 else 1) then Yield(s) == s.(finished := true)
      else Yield(s) == Switch(s, At(|s.tasks|, if s.version.List? then 0 else s.active, d))
  {
  }

  class Scheduler {
    const version: Version
    var isFinished: bool
    var size: nat
    var head: UNode?
    var active: UNode?
    ghost var nodes: seq<UNode>
    ghost var pos: nat
    ghost var log: seq<nat>

    ghost predicate Linked()
      reads `size, `head, `nodes, nodes
    {
      && size == |nodes| && head == (if nodes == [] then null else nodes[0])
      && (forall i, j :: 0 <= i < j < |nodes| ==> nodes[i] != nodes[j])
      && (forall i {:trigger nodes[i].next} :: 0 <= i < |nodes| ==> nodes[i].next == After(version, nodes, i))
      && (forall i {:trigger nodes[i].prev} :: 0 <= i < |nodes| ==> nodes[i].prev == Before(version, nodes, i))
    }

    ghost function Tasks(): (ts: seq<Task>)
      reads `nodes, nodes
      ensures |ts| == |nodes| && forall i :: 0 <= i < |ts| ==> ts[i] == nodes[i].task
    {
      var ns := nodes;
      seq(|ns|, i requires 0 <= i < |ns| reads ns => ns[i].task)
    }

    ghost function View(): Sched
      reads this, nodes
    {
      Sched(version, Tasks(), pos, isFinished, log)
    }

    // The active node is the one at the active position.
    ghost predicate Current()
      reads `active, `pos, `nodes
    {
      pos < |nodes| && active == nodes[pos]
    }

    constructor (v: Version)
      ensures Linked() && nodes == [] && version == v && !isFinished && log == [] && pos == 0
    {
      version := v;
      isFinished, size, head, active := false, 0, null, null;
      nodes, pos, log := [], 0, [];
    }

    // __create_uthread of uthreadpool: the new node precedes the old head.
    method CreateInList(k: nat)
      requires Linked() && version.List?
      modifies `size, `head, `nodes, nodes
      ensures Linked() && Tasks() == [NewTask(k)] + old(Tasks())
      ensures |nodes| == old(|nodes|) + 1 && fresh(nodes[0]) && nodes[1..] == old(nodes)
    {
      var node := new UNode(k);
      node.next := head;
      if head != null {
        head.prev := node;
      }
      nodes := [node] + nodes;
      head := node;
      size := size + 1;
    }

    // __create_uthread of uthreadpool2: the new node follows the old head in the ring.
    method CreateInRing(k: nat)
      requires Linked() && version.Ring?
      modifies `size, `head, `nodes, nodes`next, nodes`prev
      ensures Linked() && |nodes| == old(|nodes|) + 1 && fresh(nodes[0]) && nodes[0].task == NewTask(k)
      ensures nodes[1..] == if old(nodes) == [] then [] else old(nodes)[1..] + [old(nodes)[0]]
    {
      var node := new UNode(k);
      if head == null {
        node.prev := node;
        node.next := node;
        nodes := [node];
      } else {
        node.next := head.next;
        node.prev := head;
        head.next.prev := node;
        head.next := node;
        nodes := [node] + nodes[1..] + [nodes[0]];
      }
      head := node;
      size := size + 1;
    }

    method CreateUThread(k: nat)
      requires Linked()
      modifies `size, `head, `nodes, nodes
      ensures Linked() && forall x :: x in nodes ==> fresh(x) || x in old(nodes)
      ensures Tasks() == [NewTask(k)] + (if version.List? || old(nodes) == [] then old(Tasks())
                                         else old(Tasks())[1..] + [old(Tasks())[0]])
    {
      if version.List? {
        CreateInList(k);
      } else {
        CreateInRing(k);
      }
      assert nodes == [nodes[0]] + nodes[1..];
    }

    // The node at distance d from position i, or the end of the list.
    ghost predicate Reached(node: UNode?, i: nat, d: nat)
      reads `nodes
      requires i < |nodes|
    {
      d <= |nodes| && if d < |nodes| then node == nodes[At(|nodes|, i, d)] else version.List? ==> node == null
    }

    lemma StartReached(i: nat)
      requires Linked() && i < |nodes|
      ensures Reached(nodes[i], i, 0) && size == |nodes| && head == nodes[0]
    {
    }

    // One step along next; in the list from the head only.
    lemma NextReached(node: UNode, i: nat, d: nat)
      requires Linked() && i < |nodes| && d < |nodes| && (version.List? ==> i == 0) && Reached(node, i, d)
      ensures Reached(node.next, i, d + 1)
    {
    }

    // What the node at distance d tells the search.
    lemma SearchAt(node: UNode?, st: Status, i: nat, d: nat, limit: nat)
      requires i < |nodes| && d <= limit <= |nodes| && Reached(node, i, d)
      ensures d < limit ==> node != null
      ensures Search(Tasks(), st, i, d, limit) ==
        if d == limit || node.task.status == st then d else Search(Tasks(), st, i, d + 1, limit)
    {
    }

    // The searching loops: along next from a node at position i, over limit nodes at most; a list ends by itself.
    method Find(st: Status, from: UNode?, limit: nat, ghost i: nat) returns (node: UNode?, cnt: nat)
      requires Linked() && i < |nodes| && from == nodes[i] && limit <= size
      requires version.List? ==> i == 0 && limit == size
      ensures cnt == Search(Tasks(), st, i, 0, limit)
      ensures cnt < limit ==> node == nodes[At(|nodes|, i, cnt)]
    {
      hide Linked, Tasks, At, Search;
      StartReached(i);
      node, cnt := from, 0;
      while (if version.List? then node != null else cnt < limit) && node.task.status != st
        invariant 0 <= cnt <= limit && Reached(node, i, cnt)
        invariant Search(Tasks(), st, i, 0, limit) == Search(Tasks(), st, i, cnt, limit)
        decreases limit - cnt
      {
        SearchAt(node, st, i, cnt, limit);
        NextReached(node, i, cnt);
        node := node.next;
        cnt := cnt + 1;
      }
      SearchAt(node, st, i, cnt, limit);
    }

    /** add_to_scheduler */
    method AddToScheduler(k: nat)
      requires Linked()
      modifies `size, `head, `nodes, nodes
      ensures Linked() && Tasks() == Add(version, old(Tasks()), k)
      ensures forall x :: x in nodes ==> fresh(x) || x in old(nodes)
    {
      hide Search;
      if head == null {
        CreateUThread(k);
      } else {
        var node, cnt := Find(IDLE, head, size, 0);
        if cnt >= size {
          CreateUThread(k);
        } else {
          node.task := NewTask(k);
        }
      }
    }

    // The switch at the end of usched_yield; j is where the node is.
    method SwitchTo(node: UNode, ghost j: nat)
      requires Linked() && Current() && j < |nodes| && node == nodes[j]
      modifies `active, `pos, `log, nodes
      ensures Linked() && Current() && View() == Switch(old(View()), j)
    {
      var current := active;
      current.task := current.task.(status := if current.task.status == TERMINATED then IDLE else READY);
      active := node;
      active.task := active.task.(status := RUNNING);
      pos := j;
      log := log + [j];
    }

    /** usched_yield: finish, or hand over to the node found. */
    method YieldNow()
      requires Linked() && Current()
      modifies `active, `isFinished, `pos, `log, nodes
      ensures Linked() && Current() && View() == Yield(old(View()))
    {
      hide Search, Switch, At, Yield, Linked;
      StartReached(pos);
      ghost var s := View();
      var node, cnt;
      var limit := if version.List? then size else size - 1;
      if version.List? {
        node, cnt := Find(READY, head, limit, 0);
      } else {
        node, cnt := Find(READY, active, limit, pos);
      }
      YieldIs(s, cnt);
      if cnt >= limit {
        isFinished := true;
      } else {
        SwitchTo(node, At(|nodes|, if version.List? then 0 else pos, cnt));
      }
    }

    // The active task runs to its next yield or to its end; either way usched_yield follows.
    method Resume()
      requires Linked() && Current()
      modifies `active, `isFinished, `pos, `log, nodes
      ensures Linked() && Current() && View() == Turn(old(View()))
    {
      active.task := Stretch(active.task);
      assert View() == Ran(old(View()));
      YieldNow();
    }

    /** run_scheduler, and all that runs before it returns. */
    method RunScheduler()
      requires Linked() && Sound(Tasks())
      modifies `active, `isFinished, `pos, `log, nodes
      ensures Linked() && View() == RunAll(old(View()))
    {
      hide Live, Search;
      if isFinished || head == null {
        return;
      }
      var node, cnt := Find(READY, head, size, 0);
      if cnt >= size {
        return;
      }
      assert At(|nodes|, 0, cnt) == cnt;
      FirstSwitch(node, cnt);
      assert View() == Start(old(View()));
      StartLive(old(View()));
      RunOn();
    }

    method FirstSwitch(node: UNode, ghost j: nat)
      requires Linked() && j < |nodes| && node == nodes[j]
      modifies `active, `pos, `log, nodes
      ensures Linked() && Current()
      ensures
        var resumed := old(Tasks())[j].(status := RUNNING);
        View() == old(View()).(tasks := old(Tasks())[j := resumed], active := j, log := old(log) + [j])
    {
      active := node;
      active.task := active.task.(status := RUNNING);
      pos := j;
      log := log + [j];
    }

    method ResetScheduler()
      requires Linked()
      modifies `isFinished
      ensures Linked() && View() == Reset(old(View()))
    {
      isFinished := false;
    }

    // One turn after the other until a yield ends the run.
    method RunOn()
      requires Linked() && Current() && Live(View())
      modifies `active, `isFinished, `pos, `log, nodes
      ensures Linked() && View() == Finish(old(View()))
    {
      hide Linked, Turn;
      ghost var start := View();
      while !isFinished
        invariant Linked() && Current() && View().finished == isFinished
        invariant if isFinished then View() == Finish(start) else Live(View()) && Finish(View()) == Finish(start)
        decreases !isFinished, Sum(Tasks(), StillToRun)
      {
        TurnKeeps(View());
        Resume();
      }
    }
  }
}
