/**
 The list in memory: nodes linked by next, built as main builds them, and every statement of the
 routines carried out on them in place. View is the state of SwapList that the memory stands for.
 */
module SwapListMachine {
  import opened SwapList

  method RdLock(b: Build, x: Node, o: Order, t: nat)
    requires CanLock(b, x.lock, Comparer(o))
    modifies x`lock
    ensures x.lock == Locked(b, old(x.lock), Comparer(o), t)
    ensures forall u :: InLock(x.lock, u) <==> u == t || InLock(old(x.lock), u)
    ensures !CanLock(b, x.lock, Swapper) && forall c :: CanLock(b, x.lock, Comparer(c)) <==> b.RwLock?
    ensures !b.RwLock? ==> forall u :: InLock(x.lock, u) ==> u == t
  {
    if b.RwLock? {
      x.lock := Shared((if x.lock.Shared? then x.lock.readers else {}) + {t});
    } else {
      x.lock := Exclusive(t);
    }
  }

  method WrLock(x: Node, t: nat)
    requires x.lock.Free?
    modifies x`lock
    ensures x.lock == Exclusive(t)
    ensures (forall u :: InLock(x.lock, u) <==> u == t) && forall b, k :: !CanLock(b, x.lock, k)
  {
    x.lock := Exclusive(t);
  }

  method Unlk(x: Node, t: nat)
    modifies x`lock
    ensures x.lock == Unlocked(old(x.lock), t)
    ensures old(InLock(x.lock, t)) ==> forall u :: InLock(x.lock, u) <==> old(InLock(x.lock, u)) && u != t
    ensures old(InLock(x.lock, t)) && (forall u :: InLock(old(x.lock), u) ==> u == t) ==>
      forall b, k :: CanLock(b, x.lock, k)
  {
    assert x.lock.Shared? ==> forall u :: u in x.lock.readers - {t} ==> InLock(x.lock, u) && u != t;
    x.lock := if x.lock.Shared? && x.lock.readers - {t} != {} then Shared(x.lock.readers - {t}) else Free;
  }

  // The nodes, one after the other, each linked behind the last.
  method BuildChain(lens: seq<nat>) returns (head: Node, ghost chain: seq<Node>)
    requires |lens| > 0
    ensures |chain| == |lens| && chain[0] == head && Distinct(chain)
    ensures forall i :: 0 <= i < |lens| ==> fresh(chain[i]) && chain[i].len == lens[i] && chain[i].lock == Free
    ensures forall i :: 0 <= i < |lens| ==> chain[i].next == At(chain, i + 1)
  {
    head := new Node(lens[0]);
    var last := head;
    chain := [head];
    var i := 1;
    while i < |lens|
      invariant 1 <= i == |chain| <= |lens| && chain[0] == head && chain[i - 1] == last && Distinct(chain)
      invariant forall j :: 0 <= j < i ==> fresh(chain[j]) && chain[j].len == lens[j] && chain[j].lock == Free
      invariant forall j :: 0 <= j < i - 1 ==> chain[j].next == chain[j + 1]
      invariant last.next == null
    {
      var node := new Node(lens[i]);
      last.next := node;
      last := node;
      chain := chain + [node];
      i := i + 1;
    }
  }

  /** linked_list_destroy: frees every node of the chain once, each after its next has been read. */
  method Destroy(first: Node, ghost chain: seq<Node>) returns (freed: seq<Node>)
    requires |chain| > 0 && chain[0] == first && forall i :: 0 <= i < |chain| ==> chain[i].next == At(chain, i + 1)
    ensures freed == chain
  {
    freed := [];
    var cur := first;
    while cur.next != null
      invariant |freed| < |chain| && freed == chain[..|freed|] && cur == chain[|freed|]
      decreases |chain| - |freed|
    {
      var tmp := cur.next;
      freed := freed + [cur];
      cur := tmp;
    }
    freed := freed + [cur];
  }

  lemma StartsSo(s: State, chain: seq<Node>)
    requires |chain| > 0 && Distinct(chain) && s.order == chain && s.first == chain[0] && !s.stop
    requires forall x :: x in chain <==> x in s.next
    requires s.next.Keys == s.lock.Keys == s.mark.Keys
    requires forall i :: 0 <= i < |chain| ==>
      s.next[chain[i]] == At(chain, i + 1) && s.lock[chain[i]] == Free && s.mark[chain[i]] == Plain
    requires forall t :: 0 <= t < |s.threads| ==> s.threads[t].pc == Top
    ensures Init(s)
  {
  }

  class List {
    const build: Build
    const first: Node
    var stop: bool
    var threads: seq<Thread>
    ghost var nodes: set<Node>
    ghost var order: seq<Node>
    ghost var mark: map<Node, Mark>

    ghost function View(): State
      reads this, nodes
    {
      State(build, first, stop, map x | x in nodes :: x.next, map x | x in nodes :: x.lock, threads, order, mark)
    }

    // main creates the list, then the threads.
    constructor (build: Build, lens: seq<nat>, kinds: seq<Kind>)
      requires |lens| > 0
      ensures Init(View()) && this.build == build && fresh(nodes)
      ensures |order| == |lens| && forall i :: 0 <= i < |lens| ==> order[i].len == lens[i]
      ensures |threads| == |kinds| && forall t :: 0 <= t < |kinds| ==> threads[t].kind == kinds[t]
    {
      hide Distinct, At, Shape, Init;
      var head, chain := BuildChain(lens);
      this.build := build;
      first := head;
      stop := false;
      threads := seq(|kinds|, t requires 0 <= t < |kinds| => Thread(kinds[t], Top, null, null, null, 0, [], 0));
      order := chain;
      nodes := set x | x in chain;
      mark := map x | x in chain :: Plain;
      new;
      ghost var s := View();
      assert s.next.Keys == nodes && s.lock.Keys == nodes && s.mark.Keys == nodes;
      forall i | 0 <= i < |chain|
        ensures s.next[chain[i]] == At(chain, i + 1) && s.lock[chain[i]] == Free && s.mark[chain[i]] == Plain
      {
        assert chain[i] in nodes;
      }
      StartsSo(s, chain);
    }

    /** The statement at the program point of thread t, which is not blocked. */
    method Act(t: nat, coin: bool)
      requires t < |threads| && Safe(View(), t) && Enabled(View(), t)
      modifies this, nodes
      ensures nodes == old(nodes) && View() == Step(old(View()), t, coin)
    {
      hide Acquire, Release, Detach, PassOver, Reattach, Read;
      var th := threads[t];
      if IsLockPc(th.pc) {
        Lock(t);
      } else if IsUnlockPc(th.pc) {
        Unlock(t);
      } else if th.pc.Rewire1? {
        LinkPrevToNext(t);
      } else if th.pc.Rewire2? {
        LinkCurPastNext(t);
      } else if th.pc.Rewire3? {
        LinkNextToCur(t);
      } else {
        Go(t, coin);
      }
    }

    // read_lock in the compare routine, write_lock in the swap routine.
    method Lock(t: nat)
      requires t < |threads| && Safe(View(), t) && IsLockPc(threads[t].pc) && Enabled(View(), t)
      modifies this, nodes
      ensures nodes == old(nodes) && View() == Acquire(old(View()), t)
    {
      var x: Node := Wanted(first, threads[t]);
      match threads[t].kind {
        case Comparer(o) => RdLock(build, x, o, t);
        case Swapper => WrLock(x, t);
      }
      threads := threads[t := AfterLock(first, threads[t])];
    }

    method Unlock(t: nat)
      requires t < |threads| && Safe(View(), t) && IsUnlockPc(threads[t].pc)
      modifies this, nodes
      ensures nodes == old(nodes) && View() == Release(old(View()), t)
    {
      var x: Node := Releasing(threads[t]);
      Unlk(x, t);
      threads := threads[t := AfterUnlock(threads[t])];
    }

    method LinkPrevToNext(t: nat)
      requires t < |threads| && Safe(View(), t) && threads[t].pc.Rewire1?
      modifies this, nodes
      ensures nodes == old(nodes)
      ensures View() == Detach(old(View()), t, old(threads[t]).prev, old(threads[t]).cur, old(threads[t]).nxt)
    {
      var th := threads[t];
      th.prev.next := th.nxt;
      threads := threads[t := th.(pc := Unlock1)];
      order := Swapped(order, th.pos + 1);
      mark := mark[th.nxt := Skip(t)][th.cur := Back(t)];
    }

    method LinkCurPastNext(t: nat)
      requires t < |threads| && Safe(View(), t) && threads[t].pc.Rewire2?
      modifies this, nodes
      ensures nodes == old(nodes) && View() == PassOver(old(View()), t, old(threads[t]).cur, old(threads[t]).nxt)
    {
      var th := threads[t];
      th.cur.next := th.nxt.next;
      threads := threads[t := th.(pc := Unlock2)];
      mark := mark[th.cur := Off(t)];
    }

    method LinkNextToCur(t: nat)
      requires t < |threads| && Safe(View(), t) && threads[t].pc.Rewire3?
      modifies this, nodes
      ensures nodes == old(nodes) && View() == Reattach(old(View()), t, old(threads[t]).cur, old(threads[t]).nxt)
    {
      var th := threads[t];
      th.nxt.next := th.cur;
      threads := threads[t := th.(pc := Test, prev := th.nxt, pos := th.pos + 1)];
      mark := mark[th.nxt := Plain][th.cur := Plain];
    }

    // The loop tests, __needs_swap, the reads of next, and the comparison.
    method Go(t: nat, coin: bool)
      requires t < |threads| && Safe(View(), t) && IsPlainPc(threads[t].pc)
      modifies this`threads
      ensures View() == old(View()).(threads := old(threads)[t := Read(old(View()), t, coin)])
    {
      var th := threads[t];
      match th.pc {
        case Top => th := th.(pc := if stop then Done else LockFirst);
        case Test =>
          if th.prev.next == null {
            th := th.(pc := Final);
          } else {
            th := th.(pc := if th.kind.Swapper? then Coin else ReadCur);
          }
        case Coin => th := th.(pc := if coin then SwapLock else WalkLock, cur := th.prev.next);
        case ReadNext => th := th.(pc := if th.cur.next == null then Bail else LockNext, nxt := th.cur.next);
        case ReadCur => th := th.(pc := ReadLock, cur := th.prev.next);
        case Compare =>
          var size := th.prev.len;
          if Matches(th.kind.order, size, th.cur.len) {
            th := th.(count := th.count + 1);
          }
          th := th.(pc := Test, prev := th.cur, pos := th.pos + 1, visited := th.visited + [th.cur]);
        case _ =>
      }
      threads := threads[t := th];
    }
  }
}
