/**
 The shared list of lab2/src/3: any number of threads walk it hand over hand, comparing
 neighbours or swapping them by rewiring next pointers, one memory or lock operation at a time.
 */
module SwapList {

  datatype Order = ASC | DESC | EQ

  // How the build treats read_lock: USE_RWLOCK shares it, USE_MUTEX and USE_SPINLOCK do not.
  datatype Build = RwLock | Mutual

  datatype Lock = Free | Exclusive(owner: nat) | Shared(readers: set<nat>)

  class Node {
    const len: nat    // strlen of val; values never change once the list is built
    var next: Node?
    var lock: Lock

    constructor (len: nat)
      ensures this.len == len && next == null && lock == Free
    {
      this.len := len;
      next, lock := null, Free;
    }
  }

  // What a thread does: swap_routine, or __compare_routine with one of the three comparisons.
  datatype Kind = Swapper | Comparer(order: Order)

  // One program point per lock operation or access to a shared field.
  datatype Pc =
    | Top          // while (!ll->stop)
    | LockFirst    // lock first
    | Test         // while (prev->next != NULL)
    | Coin         // __needs_swap(), then cur = prev->next
    | WalkLock | WalkUnlock
    | SwapLock | ReadNext | Bail | LockNext
    | Rewire1      // prev->next = next
    | Unlock1
    | Rewire2      // cur->next = next->next
    | Unlock2
    | Rewire3      // next->next = cur
    | ReadCur | ReadLock | ReadUnlock | Compare
    | Final        // unlock(prev) after the loop
    | Done

  /** prev, cur and nxt are the routine's locals. The rest is history: pos counts the iterations of
      the pass so far, visited lists the nodes a comparer has had as prev, count what it counted. */
  datatype Thread = Thread(kind: Kind, pc: Pc, prev: Node?, cur: Node?, nxt: Node?,
                           pos: nat, visited: seq<Node>, count: nat)

  /** How a node's next pointer deviates from the logical order while thread t swaps:
      Skip: t's next, which does not point at the detached cur yet; Back: the detached cur, still
      pointing at next; Off: the detached cur, already pointing past next. */
  datatype Mark = Plain | Skip(t: nat) | Back(t: nat) | Off(t: nat)

  /** The shared memory is first, stop, next and lock; order and mark are the ghost logical list. */
  datatype State = State(build: Build, first: Node, stop: bool,
                         next: map<Node, Node?>, lock: map<Node, Lock>, threads: seq<Thread>,
                         order: seq<Node>, mark: map<Node, Mark>)

  // ---------------------------------------------------------------- lock.c

  predicate CanLock(b: Build, l: Lock, k: Kind)
  {
    l.Free? || (b.RwLock? && k.Comparer? && l.Shared?)
  }

  function Locked(b: Build, l: Lock, k: Kind, t: nat): Lock
  {
    if k.Comparer? && b.RwLock? then Shared((if l.Shared? then l.readers else {}) + {t}) else Exclusive(t)
  }

  function Unlocked(l: Lock, t: nat): Lock
  {
    if l.Shared? && l.readers - {t} != {} then Shared(l.readers - {t}) else Free
  }

  predicate InLock(l: Lock, t: nat)
  {
    match l
    case Free => false
    case Exclusive(o) => o == t
    case Shared(rs) => t in rs
  }

  // ---------------------------------------------------------------- the steps

  predicate InFlight(pc: Pc) { (pc.Unlock1? || pc.Rewire2? || pc.Unlock2? || pc.Rewire3?) }

  // The node a thread at a lock operation is about to lock.
  function Wanted(first: Node, th: Thread): Node?
  {
    match th.pc
    case LockFirst => first
    case WalkLock => th.cur
    case SwapLock => th.cur
    case ReadLock => th.cur
    case LockNext => th.nxt
    case _ => null
  }

  // The node a thread at an unlock operation is about to unlock.
  function Releasing(th: Thread): Node?
  {
    match th.pc
    case WalkUnlock => th.prev
    case Bail => th.cur
    case Unlock1 => th.prev
    case Unlock2 => th.cur
    case ReadUnlock => th.prev
    case Final => th.prev
    case _ => null
  }

  predicate IsLockPc(pc: Pc) { (pc.LockFirst? || pc.WalkLock? || pc.SwapLock? || pc.ReadLock? || pc.LockNext?) }

  predicate IsUnlockPc(pc: Pc)
  {
    pc.WalkUnlock? || pc.Bail? || pc.Unlock1? || pc.Unlock2? || pc.ReadUnlock? || pc.Final?
  }

  // The C statement at the thread's program point accesses only live nodes.
  predicate Safe(s: State, t: nat)
    requires t < |s.threads|
  {
    var th := s.threads[t];
    match th.pc
    case Test => th.prev in s.next
    case Coin => th.prev in s.next
    case ReadCur => th.prev in s.next
    case ReadNext => th.cur in s.next
    case Rewire1 => th.prev in s.next && th.nxt in s.next && th.cur in s.next && th.pos + 2 < |s.order|
    case Rewire2 => th.cur in s.next && th.nxt in s.next
    case Rewire3 => th.nxt in s.next && th.cur in s.next
    case Compare => th.prev in s.next && th.cur in s.next && th.kind.Comparer?
    case _ =>
      && (IsLockPc(th.pc) ==> Wanted(s.first, th) in s.lock)
      && (IsUnlockPc(th.pc) ==> Releasing(th) in s.lock)
  }

  // Thread t can take its next step: it is not finished and does not block on a lock.
  predicate Enabled(s: State, t: nat)
    requires t < |s.threads| && Safe(s, t)
  {
    var th := s.threads[t];
    !th.pc.Done? && (IsLockPc(th.pc) ==> CanLock(s.build, s.lock[Wanted(s.first, th)], th.kind))
  }

  predicate Matches(o: Order, a: nat, b: nat)
  {
    match o
    case ASC => a < b
    case DESC => a > b
    case EQ => a == b
  }

  function AfterLock(first: Node, th: Thread): Thread
    requires IsLockPc(th.pc)
  {
    match th.pc
    case LockFirst => th.(pc := Test, prev := first, pos := 0, visited := [first], count := 0)
    case WalkLock => th.(pc := WalkUnlock)
    case SwapLock => th.(pc := ReadNext)
    case ReadLock => th.(pc := ReadUnlock)
    case LockNext => th.(pc := Rewire1)
  }

  function AfterUnlock(th: Thread): Thread
    requires IsUnlockPc(th.pc)
  {
    match th.pc
    case WalkUnlock => th.(pc := Test, prev := th.cur, pos := th.pos + 1)
    case Bail => th.(pc := Final)
    case Unlock1 => th.(pc := Rewire2)
    case Unlock2 => th.(pc := Rewire3)
    case ReadUnlock => th.(pc := Compare)
    case Final => th.(pc := Top)
  }

  function Swapped(o: seq<Node>, i: nat): (r: seq<Node>)
    requires i + 1 < |o|
  {
    o[i := o[i + 1]][i + 1 := o[i]]
  }

  // prev->next = next: the swap takes effect in the logical order.
  function Detach(s: State, t: nat, prev: Node, cur: Node, nxt: Node): State
    requires t < |s.threads| && s.threads[t].pos + 2 < |s.order|
  {
    s.(next := s.next[prev := nxt], threads := s.threads[t := s.threads[t].(pc := Unlock1)],
    order := Swapped(s.order, s.threads[t].pos + 1), mark := s.mark[nxt := Skip(t)][cur := Back(t)])
  }

  // cur->next = next->next
  function PassOver(s: State, t: nat, cur: Node, nxt: Node): State
    requires t < |s.threads| && nxt in s.next
  {
    s.(next := s.next[cur := s.next[nxt]], threads := s.threads[t := s.threads[t].(pc := Unlock2)],
    mark := s.mark[cur := Off(t)])
  }

  // next->next = cur; prev = next
  function Reattach(s: State, t: nat, cur: Node, nxt: Node): State
    requires t < |s.threads|
  {
    var th := s.threads[t];
    s.(next := s.next[nxt := cur], threads := s.threads[t := th.(pc := Test, prev := nxt, pos := th.pos + 1)],
    mark := s.mark[nxt := Plain][cur := Plain])
  }

  function Acquire(s: State, t: nat): State
    requires t < |s.threads| && Safe(s, t) && IsLockPc(s.threads[t].pc)
  {
    var th, x: Node := s.threads[t], Wanted(s.first, s.threads[t]);
    s.(lock := s.lock[x := Locked(s.build, s.lock[x], th.kind, t)], threads := s.threads[t := AfterLock(s.first, th)])
  }

  function Release(s: State, t: nat): State
    requires t < |s.threads| && Safe(s, t) && IsUnlockPc(s.threads[t].pc)
  {
    var th, x: Node := s.threads[t], Releasing(s.threads[t]);
    s.(lock := s.lock[x := Unlocked(s.lock[x], t)], threads := s.threads[t := AfterUnlock(th)])
  }

  // count++ if the lengths compare, and prev = cur
  function Compared(th: Thread): Thread
    requires th.kind.Comparer? && th.prev != null && th.cur != null
  {
    th.(pc := Test, prev := th.cur, pos := th.pos + 1, visited := th.visited + [th.cur],
    count := if Matches(th.kind.order, th.prev.len, th.cur.len) then th.count + 1 else th.count)
  }

  // The steps that read shared memory at most; v is the next pointer the step reads, if it reads one.
  function Advance(th: Thread, stop: bool, v: Node?, coin: bool): Thread
    requires th.pc.Compare? ==> th.kind.Comparer? && th.prev != null && th.cur != null
  {
    match th.pc
    case Top => th.(pc := if stop then Done else LockFirst)
    case Test => th.(pc := if v == null then Final else if th.kind.Swapper? then Coin else ReadCur)
    case Coin => th.(pc := if coin then SwapLock else WalkLock, cur := v)
    case ReadNext => th.(pc := if v == null then Bail else LockNext, nxt := v)
    case ReadCur => th.(pc := ReadLock, cur := v)
    case Compare => Compared(th)
    case _ => th
  }

  predicate ReadsPrev(pc: Pc) { pc.Test? || pc.Coin? || pc.ReadCur? }

  function ReadValue(s: State, th: Thread): Node?
    requires ReadsPrev(th.pc) ==> th.prev in s.next
    requires th.pc.ReadNext? ==> th.cur in s.next
  {
    if ReadsPrev(th.pc) then s.next[th.prev] else if th.pc.ReadNext? then s.next[th.cur] else null
  }

  function Read(s: State, t: nat, coin: bool): Thread
    requires t < |s.threads| && Safe(s, t)
  {
    Advance(s.threads[t], s.stop, ReadValue(s, s.threads[t]), coin)
  }

  /** One step of thread t. coin is what __needs_swap returns, should the step ask. */
  function Step(s: State, t: nat, coin: bool): State
    requires t < |s.threads| && Safe(s, t)
  {
    var th := s.threads[t];
    if IsLockPc(th.pc) then Acquire(s, t)
    else if IsUnlockPc(th.pc) then Release(s, t)
    else if th.pc.Rewire1? then Detach(s, t, th.prev, th.cur, th.nxt)
    else if th.pc.Rewire2? then PassOver(s, t, th.cur, th.nxt)
    else if th.pc.Rewire3? then Reattach(s, t, th.cur, th.nxt)
    else s.(threads := s.threads[t := Read(s, t, coin)])
  }

  // ---------------------------------------------------------------- the invariant

  predicate Distinct<T(==)>(o: seq<T>)
  {
    forall i, j :: 0 <= i < j < |o| ==> o[i] != o[j]
  }

  ghost predicate Shape(s: State)
  {
    && |s.order| > 0 && s.order[0] == s.first && Distinct(s.order)
    && (forall i :: 0 <= i < |s.order| ==> s.order[i] in s.next)
    && (forall x :: x in s.next ==> x in s.order)
    && s.next.Keys == s.lock.Keys == s.mark.Keys
  }

  function At(o: seq<Node>, i: int): Node?
  {
    if 0 <= i < |o| then o[i] else null
  }

  // What the node at logical position i must point to.
  function Expected(o: seq<Node>, m: Mark, i: int): Node?
  {
    match m
    case Plain => At(o, i + 1)
    case Skip(_) => At(o, i + 2)
    case Back(_) => At(o, i - 1)
    case Off(_) => At(o, i + 1)
  }

  ghost predicate LinkAt(o: seq<Node>, next: map<Node, Node?>, mark: map<Node, Mark>, i: int)
    requires 0 <= i < |o|
  {
    o[i] in next && o[i] in mark && next[o[i]] == Expected(o, mark[o[i]], i)
  }

  ghost predicate MarkAt(m: Mark, ths: seq<Thread>, i: int)
  {
    match m
    case Plain => true
    case Skip(t) => t < |ths| && InFlight(ths[t].pc) && ths[t].pos + 1 == i
    case Back(t) => t < |ths| && (ths[t].pc.Unlock1? || ths[t].pc.Rewire2?) && ths[t].pos + 2 == i
    case Off(t) => t < |ths| && (ths[t].pc.Unlock2? || ths[t].pc.Rewire3?) && ths[t].pos + 2 == i
  }

  // The thread's program point says that it holds the lock of the node k places after its prev.
  predicate Holds(pc: Pc, k: int)
  {
    match k
    case 0 => InPass(pc) && !pc.Rewire2? && !pc.Unlock2? && !pc.Rewire3? && !pc.Compare?
    case 1 => pc.WalkUnlock? || pc.ReadNext? || pc.Bail? || pc.LockNext? || pc.Rewire1? || InFlight(pc) ||
        pc.ReadUnlock? || pc.Compare?
    case 2 => pc.Rewire1? || pc.Unlock1? || pc.Rewire2? || pc.Unlock2?
    case _ => false
  }

  // Thread th holds the lock of the node at position i.
  predicate HoldsAt(th: Thread, i: int) { Holds(th.pc, i - th.pos) }

  ghost predicate LockAt(b: Build, l: Lock, ths: seq<Thread>)
  {
    match l
    case Free => true
    case Exclusive(t) => t < |ths| && (ths[t].kind.Comparer? ==> b.Mutual?)
    case Shared(rs) => rs != {} && b.RwLock? && forall t :: t in rs ==> t < |ths| && ths[t].kind.Comparer?
  }

  predicate SwapPc(pc: Pc)
  {
    pc.Coin? || pc.WalkLock? || pc.WalkUnlock? || pc.SwapLock? || pc.ReadNext? || pc.Bail? || pc.LockNext? ||
      pc.Rewire1? || InFlight(pc)
  }

  predicate ComparePc(pc: Pc) { pc.ReadCur? || pc.ReadLock? || pc.ReadUnlock? || pc.Compare? }

  predicate InPass(pc: Pc) { !pc.Top? && !pc.LockFirst? && !pc.Done? }

  // The program points at which cur is the node after prev.
  predicate HasCur(pc: Pc)
  {
    (SwapPc(pc) && !pc.Coin? && !InFlight(pc)) || pc.ReadLock? || pc.ReadUnlock? || pc.Compare?
  }

  // The locals of a thread name the nodes at its logical position and just after it.
  ghost predicate Local(o: seq<Node>, th: Thread)
  {
    && (SwapPc(th.pc) ==> th.kind.Swapper?) && (ComparePc(th.pc) ==> th.kind.Comparer?)
    && (InPass(th.pc) ==>
          && th.pos < |o|
          && (Holds(th.pc, 0) ==> o[th.pos] == th.prev)
          && (!th.pc.Test? && !th.pc.Final? ==> th.pos + 1 < |o|)
          && (HasCur(th.pc) ==> o[th.pos + 1] == th.cur)
          && (th.pc.LockNext? || th.pc.Rewire1? ==> th.pos + 2 < |o| && o[th.pos + 2] == th.nxt)
          && (InFlight(th.pc) ==> th.pos + 2 < |o| && o[th.pos + 1] == th.nxt && o[th.pos + 2] == th.cur)
          && (th.pc.Bail? ==> th.pos + 2 == |o|)
          && (th.pc.Final? ==> th.pos + 1 == |o| || (th.kind.Swapper? && th.pos + 2 == |o|)))
  }

  // A node a thread holds is Plain unless the thread itself has it in flight.
  ghost predicate Own(o: seq<Node>, mark: map<Node, Mark>, th: Thread, t: nat, k: nat)
  {
    th.pos + k < |o| && o[th.pos + k] in mark ==>
      var m := mark[o[th.pos + k]];
      if InFlight(th.pc) && k > 0 then
        k <= 2 ==> m == if k == 1 then Skip(t) else if th.pc.Unlock1? || th.pc.Rewire2? then Back(t) else Off(t)
      else
        Holds(th.pc, k) ==> m == Plain
  }

  // The number of neighbours in v that the comparison counts.
  function Hits(c: Order, v: seq<Node>): nat
  {
    if |v| < 2 then 0
    else Hits(c, v[..|v| - 1]) + if Matches(c, v[|v| - 2].len, v[|v| - 1].len) then 1 else 0
  }

  // A comparer has visited exactly the nodes at logical positions 0..pos, each once.
  ghost predicate Visited(o: seq<Node>, th: Thread)
  {
    th.kind.Comparer? && InPass(th.pc) ==>
      && th.pos < |o| && multiset(th.visited) == multiset(o[..th.pos + 1])
      && |th.visited| == th.pos + 1 && th.visited[th.pos] == th.prev
      && th.count == Hits(th.kind.order, th.visited)
  }

  ghost predicate LinkOk(s: State, i: int)
  {
    0 <= i < |s.order| && LinkAt(s.order, s.next, s.mark, i)
  }

  ghost predicate MarkOk(s: State, i: int)
  {
    0 <= i < |s.order| && s.order[i] in s.mark && MarkAt(s.mark[s.order[i]], s.threads, i)
  }

  ghost predicate LockOk(s: State, i: int)
  {
    0 <= i < |s.order| && s.order[i] in s.lock && LockAt(s.build, s.lock[s.order[i]], s.threads)
  }

  ghost predicate ThreadOk(s: State, t: int)
    requires 0 <= t < |s.threads|
  {
    var th := s.threads[t];
    && Local(s.order, th)
    && Own(s.order, s.mark, th, t, 0) && Own(s.order, s.mark, th, t, 1) && Own(s.order, s.mark, th, t, 2)
  }

  ghost predicate PassOk(s: State, t: int)
    requires 0 <= t < |s.threads|
  {
    Visited(s.order, s.threads[t])
  }

  ghost predicate PairOk(s: State, i: int, t: int)
    requires 0 <= i < |s.order| && 0 <= t < |s.threads|
  {
    s.order[i] in s.lock && (HoldsAt(s.threads[t], i) <==> InLock(s.lock[s.order[i]], t))
  }

  ghost predicate Inv(s: State)
  {
    && Shape(s)
    && (forall i :: 0 <= i < |s.order| ==> LinkOk(s, i) && MarkOk(s, i) && LockOk(s, i))
    && (forall i, t :: 0 <= i < |s.order| && 0 <= t < |s.threads| ==> PairOk(s, i, t))
    && (forall t :: 0 <= t < |s.threads| ==> ThreadOk(s, t) && PassOk(s, t))
  }

  // ---------------------------------------------------------------- the invariant is inductive

  // Every step a thread is about to take touches only nodes of the list.
  lemma InvSafe(s: State, t: nat)
    requires Inv(s) && t < |s.threads|
    ensures Safe(s, t)
  {
    var th := s.threads[t];
    assert ThreadOk(s, t);
    if th.pc.Compare? {
      assert PassOk(s, t);
      assert th.prev in multiset(th.visited);
      assert th.prev in s.order;
    }
  }

  // Two threads never hold one node unless both share it.
  lemma Exclusion(s: State, t: nat, u: nat, i: nat)
    requires Inv(s) && t < |s.threads| && u < |s.threads| && t != u && i < |s.order|
    requires HoldsAt(s.threads[t], i) && HoldsAt(s.threads[u], i)
    ensures s.build.RwLock? && s.threads[t].kind.Comparer? && s.threads[u].kind.Comparer?
  {
    assert PairOk(s, i, t) && PairOk(s, i, u) && LockOk(s, i);
  }

  // In the same phase of a swap, if any.
  predicate SamePhase(a: Thread, b: Thread)
  {
    && (InFlight(a.pc) <==> InFlight(b.pc))
    && (InFlight(a.pc) ==> a.pos == b.pos && (a.pc.Unlock1? || a.pc.Rewire2? <==> b.pc.Unlock1? || b.pc.Rewire2?))
  }

  ghost predicate Good(o: seq<Node>, mark: map<Node, Mark>, th: Thread, t: nat)
  {
    && Local(o, th) && Visited(o, th)
    && Own(o, mark, th, t, 0) && Own(o, mark, th, t, 1) && Own(o, mark, th, t, 2)
  }

  ghost predicate RelockPre(s: State, t: nat, i: nat, l: Lock, th: Thread)
  {
    && Inv(s) && t < |s.threads| && i < |s.order|
    && Good(s.order, s.mark, th, t) && th.kind == s.threads[t].kind && SamePhase(s.threads[t], th)
    && (forall j :: 0 <= j < |s.order| && j != i ==> (HoldsAt(th, j) <==> HoldsAt(s.threads[t], j)))
    && (HoldsAt(th, i) <==> InLock(l, t))
    && (forall u: nat :: u != t ==> (InLock(l, u) <==> InLock(s.lock[s.order[i]], u)))
    && LockAt(s.build, l, s.threads)
  }

  function Relocked(s: State, t: nat, i: nat, l: Lock, th: Thread): State
    requires t < |s.threads| && i < |s.order|
  {
    s.(lock := s.lock[s.order[i] := l], threads := s.threads[t := th])
  }

  lemma RelockNode(s: State, t: nat, i: nat, l: Lock, th: Thread, j: nat)
    requires RelockPre(s, t, i, l, th) && j < |s.order|
    ensures LinkOk(Relocked(s, t, i, l, th), j) && MarkOk(Relocked(s, t, i, l, th), j)
    ensures LockOk(Relocked(s, t, i, l, th), j)
  {
    assert LinkOk(s, j) && MarkOk(s, j) && LockOk(s, j);
  }

  lemma RelockPair(s: State, t: nat, i: nat, l: Lock, th: Thread, j: nat, u: nat)
    requires RelockPre(s, t, i, l, th) && j < |s.order| && u < |s.threads|
    ensures PairOk(Relocked(s, t, i, l, th), j, u)
  {
    assert PairOk(s, j, u);
  }

  lemma RelockThread(s: State, t: nat, i: nat, l: Lock, th: Thread, u: nat)
    requires RelockPre(s, t, i, l, th) && u < |s.threads|
    ensures ThreadOk(Relocked(s, t, i, l, th), u) && PassOk(Relocked(s, t, i, l, th), u)
  {
    assert ThreadOk(s, u) && PassOk(s, u);
  }

  // A step that changes one lock at most, and no pointer, keeps the invariant.
  lemma Relock(s: State, t: nat, i: nat, l: Lock, th: Thread)
    requires RelockPre(s, t, i, l, th)
    ensures Inv(Relocked(s, t, i, l, th))
  {
    hide LinkOk, MarkOk, LockOk, PairOk, ThreadOk, PassOk;
    var s' := Relocked(s, t, i, l, th);
    forall j | 0 <= j < |s.order|
      ensures LinkOk(s', j) && MarkOk(s', j) && LockOk(s', j)
    {
      RelockNode(s, t, i, l, th, j);
    }
    forall j, u | 0 <= j < |s.order| && 0 <= u < |s.threads|
      ensures PairOk(s', j, u)
    {
      RelockPair(s, t, i, l, th, j, u);
    }
    forall u | 0 <= u < |s'.threads|
      ensures ThreadOk(s', u) && PassOk(s', u)
    {
      RelockThread(s, t, i, l, th, u);
    }
  }

  lemma SwappedPrefix(o: seq<Node>, i: nat, k: nat)
    requires i + 1 < |o| && k <= |o| && k != i + 1
    ensures multiset(Swapped(o, i)[..k]) == multiset(o[..k])
  {
    var o' := Swapped(o, i);
    if k <= i {
      assert o'[..k] == o[..k];
    } else {
      assert o[..k] == o[..i] + [o[i]] + [o[i + 1]] + o[i + 2..k];
      assert o'[..k] == o[..i] + [o[i + 1]] + [o[i]] + o[i + 2..k];
    }
  }

  // While thread t holds three neighbours to swap, no other thread holds one of them.
  lemma Alone(s: State, t: nat, u: nat, j: nat)
    requires Inv(s) && t < |s.threads| && u < |s.threads| && t != u && s.threads[t].pc.Rewire1?
    requires s.threads[t].pos <= j <= s.threads[t].pos + 2
    ensures j < |s.order| && !HoldsAt(s.threads[u], j)
  {
    assert ThreadOk(s, t);
    if HoldsAt(s.threads[u], j) {
      Exclusion(s, t, u, j);
    }
  }

  ghost predicate DetachPre(s: State, t: nat)
  {
    && Inv(s) && t < |s.threads| && s.threads[t].pc.Rewire1? && s.threads[t].pos + 2 < |s.order|
    && ThreadOk(s, t) && s.threads[t].prev != null && s.threads[t].cur != null && s.threads[t].nxt != null
  }

  // A thread that holds none of the positions p, p + 1 and p + 2 does not notice the last two trade places.
  lemma SwapKeepsLocal(o: seq<Node>, th: Thread, p: nat)
    requires p + 2 < |o| && Local(o, th) && Visited(o, th)
    requires !HoldsAt(th, p) && !HoldsAt(th, p + 1) && !HoldsAt(th, p + 2)
    ensures Local(Swapped(o, p + 1), th) && Visited(Swapped(o, p + 1), th)
  {
    assert th.kind.Comparer? && InPass(th.pc) ==> th.pos != p + 1;
    SwapKeepsVisited(o, th, p);
    hide Visited;
  }

  lemma SwapKeepsVisited(o: seq<Node>, th: Thread, p: nat)
    requires p + 2 < |o| && Visited(o, th)
    requires th.kind.Comparer? && InPass(th.pc) ==> th.pos != p + 1
    ensures Visited(Swapped(o, p + 1), th)
  {
    if InPass(th.pc) && th.kind.Comparer? {
      SwappedPrefix(o, p + 1, th.pos + 1);
    }
  }

  lemma SwapKeepsOwn(o: seq<Node>, mark: map<Node, Mark>, th: Thread, p: nat, t: nat, u: nat, k: nat)
    requires p + 2 < |o| && Distinct(o) && k <= 2 && Own(o, mark, th, u, k) && Local(o, th)
    requires o[p + 1] in mark && o[p + 2] in mark && mark[o[p + 1]] == mark[o[p + 2]] == Plain
    requires !HoldsAt(th, p) && !HoldsAt(th, p + 1) && !HoldsAt(th, p + 2)
    ensures Own(Swapped(o, p + 1), mark[o[p + 2] := Skip(t)][o[p + 1] := Back(t)], th, u, k)
  {
    var i := th.pos + k;
    if i < |o| && i != p + 1 && i != p + 2 {
      assert o[i] != o[p + 1] && o[i] != o[p + 2];
    }
  }

  lemma SwapOwnSelf(o: seq<Node>, mark: map<Node, Mark>, th: Thread, t: nat, k: nat)
    requires th.pc.Rewire1? && Local(o, th) && Distinct(o) && k <= 2
    requires o[th.pos] in mark && mark[o[th.pos]] == Plain
    ensures Local(Swapped(o, th.pos + 1), th.(pc := Unlock1))
    ensures Own(Swapped(o, th.pos + 1), mark[th.nxt := Skip(t)][th.cur := Back(t)], th.(pc := Unlock1), t, k)
  {
    assert th.kind.Swapper?;
  }

  lemma DetachThread(s: State, t: nat, u: nat)
    requires DetachPre(s, t) && u < |s.threads|
    ensures
      var s' := Detach(s, t, s.threads[t].prev, s.threads[t].cur, s.threads[t].nxt);
      ThreadOk(s', u) && PassOk(s', u)
  {
    var th, p := s.threads[u], s.threads[t].pos;
    assert ThreadOk(s, u) && PassOk(s, u);
    if u != t {
      Alone(s, t, u, p);
      Alone(s, t, u, p + 1);
      Alone(s, t, u, p + 2);
      SwapKeepsLocal(s.order, th, p);
      SwapKeepsOwn(s.order, s.mark, th, p, t, u, 0);
      SwapKeepsOwn(s.order, s.mark, th, p, t, u, 1);
      SwapKeepsOwn(s.order, s.mark, th, p, t, u, 2);
    } else {
      SwapOwnSelf(s.order, s.mark, th, t, 0);
      SwapOwnSelf(s.order, s.mark, th, t, 1);
      SwapOwnSelf(s.order, s.mark, th, t, 2);
    }
  }

  // A node that skips its successor has a detached node after it; one that points back has the skipping node before it.
  lemma MarkNeighbours(s: State, i: nat)
    requires Inv(s) && i < |s.order|
    ensures s.mark[s.order[i]].Skip? ==>
        i + 1 < |s.order| && (s.mark[s.order[i + 1]].Back? || s.mark[s.order[i + 1]].Off?)
    ensures s.mark[s.order[i]].Back? || s.mark[s.order[i]].Off? ==> 0 < i && s.mark[s.order[i - 1]].Skip?
  {
    assert MarkOk(s, i);
    if !s.mark[s.order[i]].Plain? {
      assert ThreadOk(s, s.mark[s.order[i]].t);
    }
  }

  lemma SwapLink(o: seq<Node>, next: map<Node, Node?>, mark: map<Node, Mark>, p: nat, t: nat, i: nat, j: nat)
    requires p + 2 < |o| && i < |o| && Distinct(o) && j == if i == p + 1 then p + 2 else if i == p + 2 then p + 1 else i
    requires forall k :: p <= k <= p + 2 ==> o[k] in mark && mark[o[k]] == Plain
    requires LinkAt(o, next, mark, i) && LinkAt(o, next, mark, p + 1) && LinkAt(o, next, mark, p + 2)
    requires mark[o[i]].Skip? ==> i + 1 != p
    requires mark[o[i]].Back? ==> i != p + 3
    ensures LinkAt(Swapped(o, p + 1), next[o[p] := o[p + 2]], mark[o[p + 2] := Skip(t)][o[p + 1] := Back(t)], j)
  {
    assert Swapped(o, p + 1)[j] == o[i];
  }

  function Detached(s: State, t: nat): State
    requires t < |s.threads| && s.threads[t].pos + 2 < |s.order|
    requires s.threads[t].prev != null && s.threads[t].cur != null && s.threads[t].nxt != null
  {
    Detach(s, t, s.threads[t].prev, s.threads[t].cur, s.threads[t].nxt)
  }

  lemma SwappedDistinct(o: seq<Node>, i: nat, x: Node)
    requires i + 1 < |o| && Distinct(o)
    ensures Distinct(Swapped(o, i)) && (x in o ==> x in Swapped(o, i))
  {
    var o' := Swapped(o, i);
    if x in o {
      var k :| 0 <= k < |o| && o[k] == x;
      assert o'[if k == i then i + 1 else if k == i + 1 then i else k] == x;
    }
  }

  // The order names the nodes of the list, once each.
  ghost predicate Names(o: seq<Node>, first: Node, nodes: set<Node>)
  {
    && |o| > 0 && o[0] == first && Distinct(o)
    && (forall i :: 0 <= i < |o| ==> o[i] in nodes)
    && (forall x :: x in nodes ==> x in o)
  }

  lemma SwappedNames(o: seq<Node>, i: nat, first: Node, nodes: set<Node>)
    requires Names(o, first, nodes) && 0 < i && i + 1 < |o|
    ensures Names(Swapped(o, i), first, nodes)
  {
    SwappedDistinct(o, i, first);
    forall x | x in nodes
      ensures x in Swapped(o, i)
    {
      SwappedDistinct(o, i, x);
    }
  }

  lemma DetachNames(s: State, t: nat)
    requires DetachPre(s, t)
    ensures s.threads[t].prev in s.next && s.threads[t].cur in s.next && s.threads[t].nxt in s.next
    ensures s.next.Keys == s.lock.Keys == s.mark.Keys && Names(s.order, s.first, s.next.Keys)
  {
    hide LinkOk, MarkOk, LockOk, PairOk, PassOk;
  }

  lemma DetachShape(s: State, t: nat)
    requires DetachPre(s, t)
    ensures Shape(Detached(s, t))
  {
    hide Inv, ThreadOk, Distinct, Swapped;
    DetachNames(s, t);
    SwappedNames(s.order, s.threads[t].pos + 1, s.first, s.next.Keys);
    assert Detached(s, t).next.Keys == s.next.Keys == Detached(s, t).mark.Keys;
  }

  function Moved(p: nat, i: nat): nat { if i == p + 1 then p + 2 else if i == p + 2 then p + 1 else i }

  lemma DetachLink(s: State, t: nat, i: nat)
    requires DetachPre(s, t) && i < |s.order|
    ensures LinkOk(Detached(s, t), Moved(s.threads[t].pos, i))
  {
    var p := s.threads[t].pos;
    assert LinkOk(s, i) && LinkOk(s, p) && LinkOk(s, p + 1) && LinkOk(s, p + 2);
    MarkNeighbours(s, i);
    hide Inv, MarkOk, LockOk, PairOk, PassOk, Own;
    SwapLink(s.order, s.next, s.mark, p, t, i, Moved(p, i));
  }

  lemma DetachMark(s: State, t: nat, i: nat)
    requires DetachPre(s, t) && i < |s.order|
    ensures MarkOk(Detached(s, t), Moved(s.threads[t].pos, i))
  {
    var p := s.threads[t].pos;
    assert MarkOk(s, i);
    assert Detached(s, t).order[Moved(p, i)] == s.order[i];
    if i != p + 1 && i != p + 2 {
      assert s.order[i] != s.order[p + 1] && s.order[i] != s.order[p + 2];
    }
  }

  lemma DetachPair(s: State, t: nat, i: nat, u: nat)
    requires DetachPre(s, t) && i < |s.order| && u < |s.threads|
    ensures PairOk(Detached(s, t), Moved(s.threads[t].pos, i), u)
  {
    var p := s.threads[t].pos;
    assert Detached(s, t).order[Moved(p, i)] == s.order[i];
    assert PairOk(s, i, u);
    if u != t && (i == p + 1 || i == p + 2) {
      Alone(s, t, u, p + 1);
      Alone(s, t, u, p + 2);
    }
  }

  lemma DetachNode(s: State, t: nat, j: nat)
    requires DetachPre(s, t) && j < |s.order|
    ensures LinkOk(Detached(s, t), j) && MarkOk(Detached(s, t), j) && LockOk(Detached(s, t), j)
  {
    hide LinkOk, MarkOk, PairOk, Own, Local, PassOk;
    var i := Moved(s.threads[t].pos, j);
    assert LockOk(s, i);
    DetachLink(s, t, i);
    DetachMark(s, t, i);
  }

  lemma DetachInv(s: State, t: nat)
    requires DetachPre(s, t)
    ensures Inv(Detached(s, t))
  {
    hide LinkOk, MarkOk, LockOk, PairOk, ThreadOk, PassOk;
    var s', p := Detached(s, t), s.threads[t].pos;
    DetachShape(s, t);
    forall j | 0 <= j < |s.order|
      ensures LinkOk(s', j) && MarkOk(s', j) && LockOk(s', j)
    {
      DetachNode(s, t, j);
    }
    forall j, u | 0 <= j < |s.order| && 0 <= u < |s.threads|
      ensures PairOk(s', j, u)
    {
      DetachPair(s, t, Moved(p, j), u);
    }
    forall u | 0 <= u < |s.threads|
      ensures ThreadOk(s', u) && PassOk(s', u)
    {
      DetachThread(s, t, u);
    }
  }

  // The maps agree on all nodes but the two at positions p + 1 and p + 2.
  ghost predicate SameElsewhere<V>(o: seq<Node>, m: map<Node, V>, m': map<Node, V>, p: nat)
  {
    forall i :: 0 <= i < |o| && i != p + 1 && i != p + 2 && o[i] in m' ==> o[i] in m && m'[o[i]] == m[o[i]]
  }

  // The other two writes of a swap change pointers and marks of the two nodes in flight only.
  ghost predicate RemarkPre(s: State, t: nat, next: map<Node, Node?>, mark: map<Node, Mark>, th: Thread)
  {
    && Inv(s) && t < |s.threads| && ThreadOk(s, t) && InFlight(s.threads[t].pc)
    && next.Keys == s.next.Keys && mark.Keys == s.mark.Keys
    && Good(s.order, mark, th, t) && th.kind.Swapper? && th.kind == s.threads[t].kind
    && (forall j :: 0 <= j < |s.order| ==> (HoldsAt(th, j) <==> HoldsAt(s.threads[t], j)))
    && SameElsewhere(s.order, s.mark, mark, s.threads[t].pos) && SameElsewhere(s.order, s.next, next, s.threads[t].pos)
    && RemarkedAt(s, t, next, mark, th, s.threads[t].pos + 1) && RemarkedAt(s, t, next, mark, th, s.threads[t].pos + 2)
  }

  ghost predicate RemarkedAt(s: State, t: nat, next: map<Node, Node?>, mark: map<Node, Mark>, th: Thread, j: nat)
  {
    && t < |s.threads| && j < |s.order| && LinkAt(s.order, next, mark, j)
    && MarkAt(mark[s.order[j]], s.threads[t := th], j) && (mark[s.order[j]].Plain? || mark[s.order[j]].t == t)
  }

  lemma RemarkNode(s: State, t: nat, next: map<Node, Node?>, mark: map<Node, Mark>, th: Thread, j: nat)
    requires RemarkPre(s, t, next, mark, th) && j < |s.order|
    ensures LinkOk(s.(next := next, mark := mark, threads := s.threads[t := th]), j)
    ensures MarkOk(s.(next := next, mark := mark, threads := s.threads[t := th]), j)
  {
    hide LockOk, PairOk, Good, Own, Local, ThreadOk, PassOk;
    var p := s.threads[t].pos;
    if j != p + 1 && j != p + 2 {
      assert LinkOk(s, j) && MarkOk(s, j);
    }
  }

  lemma RemarkLock(s: State, t: nat, next: map<Node, Node?>, mark: map<Node, Mark>, th: Thread, j: nat)
    requires RemarkPre(s, t, next, mark, th) && j < |s.order|
    ensures LockOk(s.(next := next, mark := mark, threads := s.threads[t := th]), j)
  {
    assert LockOk(s, j);
  }

  lemma RemarkOwn(o: seq<Node>, mark: map<Node, Mark>, mark': map<Node, Mark>, th: Thread,
                  p: nat, t: nat, u: nat, k: nat)
    requires p + 2 < |o| && u != t && k <= 2 && Own(o, mark, th, u, k) && SameElsewhere(o, mark, mark', p)
    requires o[p + 1] in mark && o[p + 2] in mark && mark[o[p + 1]] == Skip(t)
    requires (mark[o[p + 2]] == Back(t) || mark[o[p + 2]] == Off(t))
    ensures Own(o, mark', th, u, k)
  {
  }

  lemma RemarkThread(s: State, t: nat, next: map<Node, Node?>, mark: map<Node, Mark>, th: Thread, u: nat)
    requires RemarkPre(s, t, next, mark, th) && u < |s.threads|
    ensures ThreadOk(s.(next := next, mark := mark, threads := s.threads[t := th]), u)
    ensures PassOk(s.(next := next, mark := mark, threads := s.threads[t := th]), u)
  {
    hide LinkOk, MarkOk, LockOk, PairOk, LinkAt, MarkAt, RemarkedAt, Visited;
    var p, q := s.threads[t].pos, s.threads[u].pos;
    assert ThreadOk(s, u) && PassOk(s, u);
    if u != t {
      RemarkOwn(s.order, s.mark, mark, s.threads[u], p, t, u, 0);
      RemarkOwn(s.order, s.mark, mark, s.threads[u], p, t, u, 1);
      RemarkOwn(s.order, s.mark, mark, s.threads[u], p, t, u, 2);
    }
  }

  lemma RemarkInv(s: State, t: nat, next: map<Node, Node?>, mark: map<Node, Mark>, th: Thread)
    requires RemarkPre(s, t, next, mark, th)
    ensures Inv(s.(next := next, mark := mark, threads := s.threads[t := th]))
  {
    hide LinkOk, MarkOk, PassOk, ThreadOk, Good;
    var s' := s.(next := next, mark := mark, threads := s.threads[t := th]);
    forall j | 0 <= j < |s.order|
      ensures LinkOk(s', j) && MarkOk(s', j) && LockOk(s', j)
    {
      RemarkLock(s, t, next, mark, th, j);
      RemarkNode(s, t, next, mark, th, j);
    }
    forall j, u | 0 <= j < |s.order| && 0 <= u < |s.threads|
      ensures PairOk(s', j, u)
    {
      assert PairOk(s, j, u);
    }
    forall u | 0 <= u < |s'.threads|
      ensures ThreadOk(s', u) && PassOk(s', u)
    {
      RemarkThread(s, t, next, mark, th, u);
    }
  }

  // A step without a lock operation that only moves the thread itself on.
  lemma MoveInv(s: State, t: nat, th: Thread)
    requires Inv(s) && t < |s.threads| && Good(s.order, s.mark, th, t) && th.kind == s.threads[t].kind
    requires SamePhase(s.threads[t], th)
    requires forall j :: 0 <= j < |s.order| ==> (HoldsAt(th, j) <==> HoldsAt(s.threads[t], j))
    ensures Inv(s.(threads := s.threads[t := th]))
  {
    hide LinkOk, MarkOk, ThreadOk, PassOk, Good, SamePhase;
    var l := s.lock[s.order[0]];
    assert LockOk(s, 0) && PairOk(s, 0, t);
    assert s.lock[s.order[0] := l] == s.lock;
    Relock(s, t, 0, l, th);
  }

  predicate IsPlainPc(pc: Pc)
  {
    !IsLockPc(pc) && !IsUnlockPc(pc) && !pc.Rewire1? && !pc.Rewire2? && !pc.Rewire3?
  }

  lemma Threaded(s: State, t: nat)
    requires Inv(s) && t < |s.threads|
    ensures Good(s.order, s.mark, s.threads[t], t)
  {
    assert ThreadOk(s, t) && PassOk(s, t);
  }

  // What a thread reads is the next node of the logical order.
  lemma ReadsOrder(s: State, t: nat)
    requires Inv(s) && t < |s.threads| && (ReadsPrev(s.threads[t].pc) || s.threads[t].pc.ReadNext?) && Safe(s, t)
    ensures ReadValue(s, s.threads[t]) == At(s.order, s.threads[t].pos + if s.threads[t].pc.ReadNext? then 2 else 1)
  {
    hide MarkOk, LockOk, PairOk, PassOk;
    var th := s.threads[t];
    assert ThreadOk(s, t);
    assert LinkOk(s, th.pos);
    if th.pc.ReadNext? {
      assert LinkOk(s, th.pos + 1);
    }
  }

  lemma AdvanceLocal(o: seq<Node>, th: Thread, stop: bool, v: Node?, coin: bool)
    requires Local(o, th) && IsPlainPc(th.pc) && !th.pc.Compare?
    requires ReadsPrev(th.pc) ==> v == At(o, th.pos + 1)
    requires th.pc.ReadNext? ==> v == At(o, th.pos + 2)
    ensures Local(o, Advance(th, stop, v, coin))
  {
  }

  // A step inside one iteration of the loop leaves the history of the pass alone.
  lemma SameVisit(o: seq<Node>, a: Thread, b: Thread)
    requires Visited(o, a) && b.kind == a.kind && (InPass(b.pc) ==> InPass(a.pc) && b.prev == a.prev)
    requires b.visited == a.visited && b.count == a.count && b.pos == a.pos
    ensures Visited(o, b)
  {
  }

  lemma AdvanceOwn(o: seq<Node>, mark: map<Node, Mark>, th: Thread, t: nat, stop: bool, v: Node?, coin: bool, k: nat)
    requires Own(o, mark, th, t, k) && IsPlainPc(th.pc) && !th.pc.Compare? && k <= 2
    ensures Own(o, mark, Advance(th, stop, v, coin), t, k)
  {
  }

  lemma ReadGood(s: State, t: nat, coin: bool)
    requires Inv(s) && t < |s.threads| && Safe(s, t)
    requires IsPlainPc(s.threads[t].pc) && !s.threads[t].pc.Compare?
    ensures Good(s.order, s.mark, Read(s, t, coin), t)
  {
    hide MarkOk, LockOk, PairOk, ThreadOk, PassOk, LinkOk, Own, Local, Visited;
    var th := s.threads[t];
    Threaded(s, t);
    if ReadsPrev(th.pc) || th.pc.ReadNext? {
      ReadsOrder(s, t);
    }
    AdvanceLocal(s.order, th, s.stop, ReadValue(s, th), coin);
    SameVisit(s.order, th, Read(s, t, coin));
    forall k | 0 <= k <= 2
      ensures Own(s.order, s.mark, Read(s, t, coin), t, k)
    {
      AdvanceOwn(s.order, s.mark, th, t, s.stop, ReadValue(s, th), coin, k);
    }
  }

  lemma ReadStepInv(s: State, t: nat, coin: bool)
    requires Inv(s) && t < |s.threads| && Safe(s, t) && IsPlainPc(s.threads[t].pc)
    ensures Inv(s.(threads := s.threads[t := Read(s, t, coin)]))
  {
    hide Inv, Own, Visited, Local, Hits, Distinct;
    if s.threads[t].pc.Compare? {
      Threaded(s, t);
      ComparedGood(s.order, s.mark, s.threads[t], t);
    } else {
      ReadGood(s, t, coin);
    }
    hide Read, Safe, IsPlainPc;
    MoveInv(s, t, Read(s, t, coin));
  }

  lemma ComparedGood(o: seq<Node>, mark: map<Node, Mark>, th: Thread, t: nat)
    requires Good(o, mark, th, t) && th.pc.Compare? && th.prev != null && th.cur != null
    ensures Good(o, mark, Compared(th), t)
  {
    assert o[..th.pos + 2] == o[..th.pos + 1] + [o[th.pos + 1]];
    assert Compared(th).visited[..|th.visited|] == th.visited;
  }

  // A node that a thread can lock, having the node before it, is not in flight.
  lemma LockablePlain(s: State, t: nat, i: nat)
    requires Inv(s) && t < |s.threads| && i < |s.order| && CanLock(s.build, s.lock[s.order[i]], s.threads[t].kind)
    requires i > 0 ==> HoldsAt(s.threads[t], i - 1) && !InFlight(s.threads[t].pc)
    ensures s.mark[s.order[i]] == Plain
  {
    assert MarkOk(s, i) && LockOk(s, i);
    if s.mark[s.order[i]] != Plain {
      var u := s.mark[s.order[i]].t;
      assert ThreadOk(s, u) && PairOk(s, i, u);
      if i > 0 && t != u && HoldsAt(s.threads[u], i - 1) {
        Exclusion(s, t, u, i - 1);
      }
    }
  }

  // The position of the node that the thread is about to lock or to unlock.
  function LockPlace(th: Thread): nat
  {
    if th.pc.LockFirst? then 0 else th.pos + if th.pc.LockNext? then 2 else 1
  }

  function UnlockPlace(th: Thread): nat
  {
    th.pos + if th.pc.Bail? then 1 else if th.pc.Unlock2? then 2 else 0
  }

  lemma LockedGood(o: seq<Node>, mark: map<Node, Mark>, th: Thread, t: nat)
    requires Good(o, mark, th, t) && IsLockPc(th.pc) && LockPlace(th) < |o|
    requires o[LockPlace(th)] in mark && mark[o[LockPlace(th)]] == Plain
    ensures Good(o, mark, AfterLock(o[0], th), t)
  {
    assert o[..1] == [o[0]];
  }

  // Locking and unlocking change what the thread holds at that one place.
  lemma HoldsAfter(th: Thread, first: Node, j: nat)
    ensures IsLockPc(th.pc) ==> (HoldsAt(AfterLock(first, th), j) <==> HoldsAt(th, j) || j == LockPlace(th))
    ensures IsUnlockPc(th.pc) ==> (HoldsAt(AfterUnlock(th), j) <==> HoldsAt(th, j) && j != UnlockPlace(th))
  {
  }

  lemma AcquirePre(s: State, t: nat)
    requires Inv(s) && t < |s.threads| && Safe(s, t) && Enabled(s, t) && IsLockPc(s.threads[t].pc)
    ensures LockPlace(s.threads[t]) < |s.order| && s.order[LockPlace(s.threads[t])] == Wanted(s.first, s.threads[t])
    ensures Good(s.order, s.mark, AfterLock(s.first, s.threads[t]), t)
  {
    hide MarkOk, LinkOk, LockOk, PairOk, ThreadOk, PassOk, Own, Visited;
    var th := s.threads[t];
    Threaded(s, t);
    assert s.order[LockPlace(th)] in s.next;
    LockablePlain(s, t, LockPlace(th));
    LockedGood(s.order, s.mark, th, t);
  }

  lemma AcquireInv(s: State, t: nat)
    requires Inv(s) && t < |s.threads| && Safe(s, t) && Enabled(s, t) && IsLockPc(s.threads[t].pc)
    ensures Inv(Acquire(s, t))
  {
    hide MarkOk, LinkOk, ThreadOk, PassOk, Good, HoldsAt, LockPlace;
    var th, i := s.threads[t], LockPlace(s.threads[t]);
    AcquirePre(s, t);
    forall j | 0 <= j < |s.order|
      ensures HoldsAt(AfterLock(s.first, th), j) <==> HoldsAt(th, j) || j == i
    {
      HoldsAfter(th, s.first, j);
    }
    assert LockOk(s, i) && PairOk(s, i, t);
    Relock(s, t, i, Locked(s.build, s.lock[s.order[i]], th.kind, t), AfterLock(s.first, th));
  }

  lemma UnlockedGood(o: seq<Node>, mark: map<Node, Mark>, th: Thread, t: nat)
    requires Good(o, mark, th, t) && IsUnlockPc(th.pc)
    ensures Good(o, mark, AfterUnlock(th), t)
  {
  }

  lemma UnlockedPlace(o: seq<Node>, th: Thread)
    requires Local(o, th) && IsUnlockPc(th.pc)
    ensures UnlockPlace(th) < |o| && o[UnlockPlace(th)] == Releasing(th)
    ensures HoldsAt(th, UnlockPlace(th))
  {
  }

  lemma ReleaseInv(s: State, t: nat)
    requires Inv(s) && t < |s.threads| && Safe(s, t) && IsUnlockPc(s.threads[t].pc)
    ensures Inv(Release(s, t))
  {
    hide MarkOk, LinkOk, ThreadOk, PassOk, Own, Visited, Local, HoldsAt, UnlockPlace;
    var th, i := s.threads[t], UnlockPlace(s.threads[t]);
    Threaded(s, t);
    UnlockedGood(s.order, s.mark, th, t);
    UnlockedPlace(s.order, th);
    forall j | 0 <= j < |s.order|
      ensures HoldsAt(AfterUnlock(th), j) <==> HoldsAt(th, j) && j != i
    {
      HoldsAfter(th, s.first, j);
    }
    assert LockOk(s, i) && PairOk(s, i, t);
    Relock(s, t, i, Unlocked(s.lock[s.order[i]], t), AfterUnlock(th));
  }

  lemma FlightLinks(s: State, t: nat)
    requires Inv(s) && t < |s.threads| && InFlight(s.threads[t].pc)
    ensures Good(s.order, s.mark, s.threads[t], t)
    ensures s.threads[t].nxt in s.next && s.next[s.threads[t].nxt] == At(s.order, s.threads[t].pos + 3)
    ensures s.threads[t].cur in s.next
    ensures s.threads[t].pc.Rewire3? ==> s.next[s.threads[t].cur] == At(s.order, s.threads[t].pos + 3)
  {
    hide MarkOk, LockOk, PairOk, PassOk, ThreadOk, Visited;
    Threaded(s, t);
    assert LinkOk(s, s.threads[t].pos + 1) && LinkOk(s, s.threads[t].pos + 2);
  }

  lemma PassOverGood(o: seq<Node>, mark: map<Node, Mark>, th: Thread, t: nat)
    requires Good(o, mark, th, t) && th.pc.Rewire2? && Distinct(o)
    ensures Good(o, mark[th.cur := Off(t)], th.(pc := Unlock2), t)
  {
  }

  lemma PassOverAt(s: State, t: nat, k: nat)
    requires Inv(s) && t < |s.threads| && Safe(s, t) && s.threads[t].pc.Rewire2? && 1 <= k <= 2
    ensures
      var th, s' := s.threads[t], PassOver(s, t, s.threads[t].cur, s.threads[t].nxt);
      RemarkedAt(s, t, s'.next, s'.mark, s'.threads[t], th.pos + k)
  {
    hide LockOk, PairOk, LinkOk, MarkOk, PassOk;
    FlightLinks(s, t);
  }

  lemma PassOverInv(s: State, t: nat)
    requires Inv(s) && t < |s.threads| && Safe(s, t) && s.threads[t].pc.Rewire2?
    ensures Inv(PassOver(s, t, s.threads[t].cur, s.threads[t].nxt))
  {
    hide LockOk, PairOk, LinkOk, MarkOk, PassOk, Good, RemarkedAt;
    var th, s' := s.threads[t], PassOver(s, t, s.threads[t].cur, s.threads[t].nxt);
    FlightLinks(s, t);
    PassOverGood(s.order, s.mark, th, t);
    PassOverAt(s, t, 1);
    PassOverAt(s, t, 2);
    assert ThreadOk(s, t);
    RemarkInv(s, t, s'.next, s'.mark, s'.threads[t]);
  }

  lemma ReattachAt(s: State, t: nat, k: nat)
    requires Inv(s) && t < |s.threads| && Safe(s, t) && s.threads[t].pc.Rewire3? && 1 <= k <= 2
    ensures
      var th, s' := s.threads[t], Reattach(s, t, s.threads[t].cur, s.threads[t].nxt);
      RemarkedAt(s, t, s'.next, s'.mark, s'.threads[t], th.pos + k)
  {
    hide LockOk, PairOk, LinkOk, MarkOk, PassOk;
    FlightLinks(s, t);
  }

  lemma ReattachGood(o: seq<Node>, mark: map<Node, Mark>, th: Thread, t: nat)
    requires Good(o, mark, th, t) && th.pc.Rewire3? && Distinct(o) && th.nxt != null && th.cur != null
    ensures Good(o, mark[th.nxt := Plain][th.cur := Plain], th.(pc := Test, prev := th.nxt, pos := th.pos + 1), t)
  {
  }

  lemma ReattachInv(s: State, t: nat)
    requires Inv(s) && t < |s.threads| && Safe(s, t) && s.threads[t].pc.Rewire3?
    ensures Inv(Reattach(s, t, s.threads[t].cur, s.threads[t].nxt))
  {
    hide LockOk, PairOk, LinkOk, MarkOk, PassOk, Good, RemarkedAt;
    var th, s' := s.threads[t], Reattach(s, t, s.threads[t].cur, s.threads[t].nxt);
    FlightLinks(s, t);
    ReattachGood(s.order, s.mark, th, t);
    ReattachAt(s, t, 1);
    ReattachAt(s, t, 2);
    assert ThreadOk(s, t);
    RemarkInv(s, t, s'.next, s'.mark, s'.threads[t]);
  }

  /** Whatever step any thread takes next, the invariant still holds. */
  lemma StepInv(s: State, t: nat, coin: bool)
    requires Inv(s) && t < |s.threads| && Safe(s, t) && Enabled(s, t)
    ensures Inv(Step(s, t, coin))
  {
    hide LinkOk, MarkOk, LockOk, PairOk, PassOk, Shape, Detach, PassOver, Reattach, Acquire, Release, Read;
    var th := s.threads[t];
    if IsLockPc(th.pc) {
      AcquireInv(s, t);
    } else if IsUnlockPc(th.pc) {
      ReleaseInv(s, t);
    } else if th.pc.Rewire1? {
      assert ThreadOk(s, t);
      DetachInv(s, t);
    } else if th.pc.Rewire2? {
      PassOverInv(s, t);
    } else if th.pc.Rewire3? {
      ReattachInv(s, t);
    } else {
      ReadStepInv(s, t, coin);
    }
  }

  // ---------------------------------------------------------------- runs

  predicate StepTo(s: State, t: nat, coin: bool, s': State)
  {
    t < |s.threads| && Safe(s, t) && Enabled(s, t) && s' == Step(s, t, coin)
  }

  // One thread takes a step, or main raises stop.
  ghost predicate Next(s: State, s': State)
  {
    (!s.stop && s' == s.(stop := true)) || exists t: nat, coin :: StepTo(s, t, coin, s')
  }

  // The list as main builds it, before the threads start: linked in order, every lock free.
  ghost predicate Init(s: State)
  {
    && Shape(s) && !s.stop
    && (forall i :: 0 <= i < |s.order| ==>
          s.next[s.order[i]] == At(s.order, i + 1) && s.lock[s.order[i]] == Free && s.mark[s.order[i]] == Plain)
    && (forall t :: 0 <= t < |s.threads| ==> s.threads[t].pc == Top)
  }

  ghost predicate Run(tr: seq<State>)
  {
    && |tr| > 0 && Init(tr[0])
    && forall i :: 0 <= i < |tr| - 1 ==> Next(tr[i], tr[i + 1])
  }

  lemma InitThread(s: State, t: nat)
    requires Init(s) && t < |s.threads|
    ensures ThreadOk(s, t) && PassOk(s, t)
  {
    hide Shape;
  }

  lemma InitNode(s: State, i: nat)
    requires Init(s) && i < |s.order|
    ensures LinkOk(s, i) && MarkOk(s, i) && LockOk(s, i)
  {
  }

  lemma InitPair(s: State, i: nat, t: nat)
    requires Init(s) && i < |s.order| && t < |s.threads|
    ensures PairOk(s, i, t)
  {
  }

  lemma InitInv(s: State)
    requires Init(s)
    ensures Inv(s)
  {
    hide LinkOk, MarkOk, LockOk, ThreadOk, PassOk, PairOk;
    forall i | 0 <= i < |s.order|
      ensures LinkOk(s, i) && MarkOk(s, i) && LockOk(s, i)
    {
      InitNode(s, i);
    }
    forall t | 0 <= t < |s.threads|
      ensures ThreadOk(s, t) && PassOk(s, t)
    {
      InitThread(s, t);
    }
    forall i, t | 0 <= i < |s.order| && 0 <= t < |s.threads|
      ensures PairOk(s, i, t)
    {
      InitPair(s, i, t);
    }
  }

  // Nodes come and go nowhere: the logical order is always a permutation of the initial list.
  ghost predicate SameList(s: State, s': State)
  {
    s'.first == s.first && s'.next.Keys == s.next.Keys && multiset(s'.order) == multiset(s.order) &&
      |s'.threads| == |s.threads|
  }

  lemma SwappedSame(o: seq<Node>, i: nat)
    requires i + 1 < |o|
    ensures multiset(Swapped(o, i)) == multiset(o)
  {
    SwappedPrefix(o, i, |o|);
    assert Swapped(o, i)[..|o|] == Swapped(o, i) && o[..|o|] == o;
  }

  lemma DetachSame(s: State, t: nat)
    requires t < |s.threads| && Safe(s, t) && s.threads[t].pc.Rewire1?
    ensures SameList(s, Detached(s, t))
  {
    hide Swapped;
    SwappedSame(s.order, s.threads[t].pos + 1);
  }

  lemma StepSame(s: State, t: nat, coin: bool)
    requires t < |s.threads| && Safe(s, t)
    ensures SameList(s, Step(s, t, coin))
  {
    hide AfterLock, AfterUnlock, Locked, Unlocked, Advance, Swapped;
    if s.threads[t].pc.Rewire1? {
      DetachSame(s, t);
    } else {
      hide Detach;
    }
  }

  lemma {:induction false} RunInv(tr: seq<State>, k: nat)
    requires Run(tr) && k < |tr|
    ensures Inv(tr[k]) && SameList(tr[0], tr[k])
  {
    if k == 0 {
      InitInv(tr[0]);
    } else {
      RunInv(tr, k - 1);
      var s, s' := tr[k - 1], tr[k];
      assert Next(s, s');
      if t: nat, coin :| StepTo(s, t, coin, s') {
        StepInv(s, t, coin);
        StepSame(s, t, coin);
      } else {
        StopInv(s);
      }
    }
  }

  lemma StopInv(s: State)
    requires Inv(s)
    ensures Inv(s.(stop := true))
  {
    hide LinkAt, MarkAt, LockAt, Local, Own, Visited;
    var s' := s.(stop := true);
    assert forall i :: (LinkOk(s', i) <==> LinkOk(s, i)) && (LockOk(s', i) <==> LockOk(s, i));
    assert forall i :: MarkOk(s', i) <==> MarkOk(s, i);
    assert forall i, t :: 0 <= i < |s.order| && 0 <= t < |s.threads| ==> (PairOk(s', i, t) <==> PairOk(s, i, t));
    assert forall t :: 0 <= t < |s.threads| ==>
        (ThreadOk(s', t) <==> ThreadOk(s, t)) && (PassOk(s', t) <==> PassOk(s, t));
  }
}
