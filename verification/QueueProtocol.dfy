/**
 The bounded queues of lab2/src/2 under any number of readers and writers: behind a mutex or
 spinlock, with two condition variables, or with two semaphores, one shared access at a time.
 */
module QueueProtocol {
  import opened Counting
  import opened Options

  // Locked is both queue_mutex and queue_spinlock: their bodies are the same under the lock.
  datatype Kind = Locked | Condvar | Semaphore

  datatype Role = Writer | Reader

  datatype Pc =
    | Idle      // outside queue_add and queue_get
    | SemWait   // sem_wait on empty or on full
    | Lock
    | Test      // while (count == max_count) or while (count == 0)
    | Asleep    // inside pthread_cond_wait, without the mutex
    | Relock    // leaving pthread_cond_wait
    | Check     // the assert and the if that follows it
    | Link      // the new node is linked in, or the first node out
    | Count     // count++ or count--
    | Notify    // pthread_cond_signal or sem_post
    | Unlock
    | Refuse    // unlock and return 0

  // n is the writer's i or the reader's expected, val what a reader has taken out.
  datatype Thread = Thread(role: Role, pc: Pc, n: int, val: int)

  /** list holds the values of the linked nodes; added and taken list what went in and came out.
      broken records a failed assert, error a reader's ERROR message. */
  datatype State = State(kind: Kind, max: nat, list: seq<int>, count: int, owner: Option<nat>,
                         empty: int, full: int, added: seq<int>, taken: seq<int>,
                         broken: bool, error: bool, threads: seq<Thread>)

  // ---------------------------------------------------------------- the steps

  // What makes a thread of this role wait or be refused.
  predicate NoRoom(s: State, r: Role)
  {
    s.count == if r.Writer? then s.max else 0
  }

  predicate AssertHolds(s: State, r: Role)
  {
    if r.Writer? then s.count <= s.max else s.count >= 0
  }

  function NextPc(s: State, th: Thread): Pc
  {
    match th.pc
    case Idle => if s.kind.Semaphore? then SemWait else Lock
    case SemWait => Lock
    case Lock => if s.kind.Semaphore? then Link else if s.kind.Condvar? then Test else Check
    case Test => if NoRoom(s, th.role) then Asleep else Check
    case Asleep => Relock
    case Relock => Test
    case Check => if NoRoom(s, th.role) then Refuse else Link
    case Link => Count
    case Count => if s.kind.Locked? then Unlock else Notify
    case Notify => Unlock
    case Unlock => Idle
    case Refuse => Idle
  }

  predicate Takes(th: Thread) { th.role.Reader? && th.pc.Link? }

  predicate Puts(th: Thread) { th.role.Writer? && th.pc.Link? }

  // The thread's own locals: a success makes a writer count i up and a reader expect the next value.
  function Moved(s: State, th: Thread): Thread
  {
    var th' := th.(pc := NextPc(s, th));
    if Takes(th) && s.list != [] then th'.(val := s.list[0])
    else if th.pc.Unlock? then th'.(n := if th.role.Writer? then th.n + 1 else th.val + 1)
    else th'
  }

  predicate Inside(pc: Pc)
  {
    pc.Test? || pc.Check? || pc.Link? || pc.Count? || pc.Notify? || pc.Unlock? || pc.Refuse?
  }

  predicate CanStep(s: State, t: nat)
    requires t < |s.threads|
  {
    var th := s.threads[t];
    match th.pc
    case SemWait => (if th.role.Writer? then s.empty else s.full) > 0
    case Lock => s.owner.None?
    case Relock => s.owner.None?
    case Link => th.role.Reader? ==> s.list != []   // tmp->val and first->next need a first node
    case _ => true
  }

  predicate Wakes(th: Thread, r: Role) { th.pc.Asleep? && th.role != r }

  /** One step of thread t. An asleep thread steps when its wait ends without a signal.
      pthread_cond_signal wakes thread w, which waits on the other condition variable. */
  function Step(s: State, t: nat, w: nat): State
    requires t < |s.threads| && CanStep(s, t)
  {
    var th := s.threads[t];
    var ths := s.threads[t := Moved(s, th)];
    match th.pc
    case Idle => s.(threads := ths, broken := s.broken || (s.kind.Semaphore? && !AssertHolds(s, th.role)))
    case SemWait =>
      if th.role.Writer? then s.(threads := ths, empty := s.empty - 1) else s.(threads := ths, full := s.full - 1)
    case Lock => s.(threads := ths, owner := Some(t))
    case Relock => s.(threads := ths, owner := Some(t))
    case Test => s.(threads := ths, owner := if NoRoom(s, th.role) then None else s.owner)
    case Asleep => s.(threads := ths)
    case Check => s.(threads := ths, broken := s.broken || !AssertHolds(s, th.role))
    case Link =>
      if th.role.Writer? then s.(threads := ths, list := s.list + [th.n], added := s.added + [th.n])
      else s.(threads := ths, list := s.list[1..], taken := s.taken + [s.list[0]])
    case Count => s.(threads := ths, count := if th.role.Writer? then s.count + 1 else s.count - 1)
    case Notify =>
      if s.kind.Semaphore? then
        if th.role.Writer? then s.(threads := ths, full := s.full + 1) else s.(threads := ths, empty := s.empty + 1)
      else
        s.(threads := if w < |ths| && Wakes(ths[w], th.role) then ths[w := ths[w].(pc := Relock)] else ths)
    case Unlock =>
      s.(threads := ths, owner := None, error := s.error || (th.role.Reader? && th.n != th.val))
    case Refuse => s.(threads := ths, owner := None)
  }

  // A signal wakes somebody if anybody waits.
  ghost predicate MayWake(s: State, r: Role, w: nat)
  {
    (exists u :: 0 <= u < |s.threads| && Wakes(s.threads[u], r)) ==> w < |s.threads| && Wakes(s.threads[w], r)
  }

  ghost predicate StepTo(s: State, t: nat, w: nat, s': State)
  {
    && t < |s.threads| && CanStep(s, t)
    && (s.threads[t].pc.Notify? ==> MayWake(s, s.threads[t].role, w))
    && s' == Step(s, t, w)
  }

  ghost predicate Next(s: State, s': State) { exists t: nat, w: nat :: StepTo(s, t, w, s') }

  // queue_init, and the clients about to start: writers at i = 0, readers expecting 0.
  ghost predicate Init(s: State)
  {
    && s.list == [] && s.count == 0 && s.owner.None? && s.added == [] && s.taken == []
    && s.empty == s.max && s.full == 0 && !s.broken && !s.error
    && forall t :: 0 <= t < |s.threads| ==> s.threads[t].pc.Idle? && s.threads[t].n == 0
  }

  ghost predicate Run(tr: seq<State>)
  {
    && |tr| > 0 && Init(tr[0])
    && forall i :: 0 <= i < |tr| - 1 ==> Next(tr[i], tr[i + 1])
  }

  // ---------------------------------------------------------------- the invariant

  // Semaphore tokens in the hands of threads.
  predicate HasSlot(th: Thread) { th.role.Writer? && (th.pc.Lock? || th.pc.Link? || th.pc.Count? || th.pc.Notify?) }

  predicate HasItem(th: Thread) { th.role.Reader? && (th.pc.Lock? || th.pc.Link? || th.pc.Count? || th.pc.Notify?) }

  predicate ToTake(th: Thread) { th.role.Reader? && (th.pc.Lock? || th.pc.Link?) }

  predicate HasPut(th: Thread) { th.role.Writer? && (th.pc.Count? || th.pc.Notify?) }

  // A thread woken or on its way in, which has not changed count yet.
  predicate Coming(th: Thread)
  {
    th.pc.Lock? || th.pc.Relock? || th.pc.Test? || th.pc.Check? || th.pc.Link? || th.pc.Count?
  }

  predicate ReaderComing(th: Thread) { th.role.Reader? && Coming(th) }

  predicate WriterComing(th: Thread) { th.role.Writer? && Coming(th) }

  predicate ReaderNotifies(th: Thread) { th.role.Reader? && th.pc.Notify? }

  predicate WriterNotifies(th: Thread) { th.role.Writer? && th.pc.Notify? }

  predicate ReaderAsleep(th: Thread) { th.role.Reader? && th.pc.Asleep? }

  predicate WriterAsleep(th: Thread) { th.role.Writer? && th.pc.Asleep? }

  ghost predicate ThreadOk(s: State, t: int)
    requires 0 <= t < |s.threads|
  {
    var th := s.threads[t];
    && (Inside(th.pc) <==> s.owner == Some(t))
    && (th.pc.SemWait? ==> s.kind.Semaphore?)
    && (th.pc.Test? || th.pc.Asleep? || th.pc.Relock? ==> s.kind.Condvar?)
    && (th.pc.Check? ==> !s.kind.Semaphore?)
    && (th.pc.Notify? ==> !s.kind.Locked?)
    && (th.pc.Refuse? ==> s.kind.Locked? && NoRoom(s, th.role))
    && (th.pc.Check? && s.kind.Condvar? ==> !NoRoom(s, th.role))
    && (th.pc.Link? && !s.kind.Semaphore? ==> !NoRoom(s, th.role))
  }

  // count follows the list but for the owner between linking and counting.
  function Lag(s: State): int
  {
    if s.owner.Some? && s.owner.value < |s.threads| && s.threads[s.owner.value].pc.Count? then
      if s.threads[s.owner.value].role.Writer? then 1 else -1
    else 0
  }

  ghost predicate Tokens(s: State)
  {
    s.kind.Semaphore? ==>
      && s.empty >= 0 && s.full >= 0
      && s.empty + s.full + Counting.Count(s.threads, HasSlot) + Counting.Count(s.threads, HasItem) == s.max
      && |s.list| == s.full + Counting.Count(s.threads, ToTake) + Counting.Count(s.threads, HasPut)
  }

  // For every item there is a reader on its way or a signal still to come, if readers sleep.
  ghost predicate ReaderWakeups(s: State)
  {
    s.kind.Condvar? && Counting.Count(s.threads, ReaderAsleep) > 0 ==>
      s.count <= Counting.Count(s.threads, ReaderComing) + Counting.Count(s.threads, WriterNotifies)
  }

  // For every free place there is a writer on its way or a signal still to come, if writers sleep.
  ghost predicate WriterWakeups(s: State)
  {
    s.kind.Condvar? && Counting.Count(s.threads, WriterAsleep) > 0 ==>
      s.max - s.count <= Counting.Count(s.threads, WriterComing) + Counting.Count(s.threads, ReaderNotifies)
  }

  ghost predicate Inv(s: State)
  {
    && (forall t :: 0 <= t < |s.threads| ==> ThreadOk(s, t))
    && (s.owner.Some? ==> s.owner.value < |s.threads|)
    && |s.list| == s.count + Lag(s) && 0 <= s.count <= s.max && |s.list| <= s.max
    && s.added == s.taken + s.list && !s.broken
    && Tokens(s) && ReaderWakeups(s) && WriterWakeups(s)
  }

  lemma InitInv(s: State)
    requires Init(s)
    ensures Inv(s)
  {
    NoneCount(s.threads, HasSlot);
    NoneCount(s.threads, HasItem);
    NoneCount(s.threads, ToTake);
    NoneCount(s.threads, HasPut);
    NoneCount(s.threads, ReaderAsleep);
    NoneCount(s.threads, WriterAsleep);
  }

  // The step wakes thread w by a signal.
  predicate Signals(s: State, t: nat, w: nat)
    requires t < |s.threads|
  {
    s.threads[t].pc.Notify? && !s.kind.Semaphore? && w < |s.threads| && Wakes(s.threads[w], s.threads[t].role)
  }

  lemma StepThreads(s: State, t: nat, w: nat)
    requires t < |s.threads| && CanStep(s, t)
    ensures
      var ths := s.threads[t := Moved(s, s.threads[t])];
      Step(s, t, w).threads == if Signals(s, t, w) then ths[w := s.threads[w].(pc := Relock)] else ths
  {
  }

  lemma StepCount(s: State, t: nat, w: nat, p: Thread -> bool)
    requires t < |s.threads| && CanStep(s, t)
    ensures Counting.Count(Step(s, t, w).threads, p) == Counting.Count(s.threads, p)
      - I(p(s.threads[t])) + I(p(Moved(s, s.threads[t])))
      + (if Signals(s, t, w) then I(p(s.threads[w].(pc := Relock))) - I(p(s.threads[w])) else 0)
    ensures p(s.threads[t]) ==> Counting.Count(s.threads, p) > 0
  {
    hide Moved, Step;
    StepThreads(s, t, w);
    var ths := s.threads[t := Moved(s, s.threads[t])];
    CountUpdate(s.threads, t, Moved(s, s.threads[t]), p);
    if Signals(s, t, w) {
      CountUpdate(ths, w, s.threads[w].(pc := Relock), p);
    }
  }

  lemma StepThreadOk(s: State, t: nat, w: nat, u: nat)
    requires Inv(s) && t < |s.threads| && CanStep(s, t) && u < |s.threads|
    ensures |Step(s, t, w).threads| == |s.threads| && ThreadOk(Step(s, t, w), u)
  {
    hide Tokens, ReaderWakeups, WriterWakeups;
    assert ThreadOk(s, t) && ThreadOk(s, u);
  }

  lemma StepTokens(s: State, t: nat, w: nat)
    requires Inv(s) && t < |s.threads| && CanStep(s, t)
    ensures Tokens(Step(s, t, w))
  {
    if s.kind.Semaphore? {
      hide ReaderWakeups, WriterWakeups;
      assert ThreadOk(s, t);
      StepCount(s, t, w, HasSlot);
      StepCount(s, t, w, HasItem);
      StepCount(s, t, w, ToTake);
      StepCount(s, t, w, HasPut);
    }
  }

  lemma StepReaderWakeups(s: State, t: nat, w: nat)
    requires Inv(s) && t < |s.threads| && CanStep(s, t)
    requires s.threads[t].pc.Notify? ==> MayWake(s, s.threads[t].role, w)
    ensures ReaderWakeups(Step(s, t, w))
  {
    if s.kind.Condvar? {
      hide Tokens, WriterWakeups;
      assert ThreadOk(s, t);
      StepCount(s, t, w, ReaderAsleep);
      StepCount(s, t, w, ReaderComing);
      StepCount(s, t, w, WriterNotifies);
      CountWitness(s.threads, ReaderAsleep);
    }
  }

  lemma StepWriterWakeups(s: State, t: nat, w: nat)
    requires Inv(s) && t < |s.threads| && CanStep(s, t)
    requires s.threads[t].pc.Notify? ==> MayWake(s, s.threads[t].role, w)
    ensures WriterWakeups(Step(s, t, w))
  {
    if s.kind.Condvar? {
      hide Tokens, ReaderWakeups;
      assert ThreadOk(s, t);
      StepCount(s, t, w, WriterAsleep);
      StepCount(s, t, w, WriterComing);
      StepCount(s, t, w, ReaderNotifies);
      CountWitness(s.threads, WriterAsleep);
    }
  }

  // A thread about to link a node in has room for it, one about to take a node out has one to take.
  lemma LinkFits(s: State, t: nat)
    requires Inv(s) && t < |s.threads| && s.threads[t].pc.Link?
    ensures if s.threads[t].role.Writer? then |s.list| < s.max else |s.list| > 0
  {
    assert ThreadOk(s, t);
    if s.kind.Semaphore? {
      CountSubset(s.threads, ToTake, HasItem);
      CountSubset(s.threads, HasPut, HasSlot);
      CountWitness(s.threads, ToTake);
    }
  }

  lemma StepCounted(s: State, t: nat, w: nat)
    requires Inv(s) && t < |s.threads| && CanStep(s, t)
    ensures
      var s' := Step(s, t, w);
      && (s'.owner.Some? ==> s'.owner.value < |s'.threads|)
      && |s'.list| == s'.count + Lag(s') && 0 <= s'.count <= s'.max && |s'.list| <= s'.max
  {
    hide Tokens, ReaderWakeups, WriterWakeups, Moved, AssertHolds;
    assert ThreadOk(s, t);
    StepThreads(s, t, w);
    if s.threads[t].pc.Link? {
      LinkFits(s, t);
    }
    if s.owner.Some? {
      assert ThreadOk(s, s.owner.value);
    }
    MovedPc(s, s.threads[t]);
  }

  lemma MovedPc(s: State, th: Thread)
    ensures Moved(s, th).pc == NextPc(s, th) && Moved(s, th).role == th.role
  {
  }

  lemma StepKept(s: State, t: nat, w: nat)
    requires Inv(s) && t < |s.threads| && CanStep(s, t)
    ensures Step(s, t, w).added == Step(s, t, w).taken + Step(s, t, w).list && !Step(s, t, w).broken
  {
    hide Tokens, ReaderWakeups, WriterWakeups, Moved, NextPc, Lag, ThreadOk;
  }

  /** Any step of any thread keeps the invariant. */
  lemma StepInv(s: State, t: nat, w: nat, s': State)
    requires Inv(s) && StepTo(s, t, w, s')
    ensures Inv(s')
  {
    hide Tokens, ReaderWakeups, WriterWakeups, ThreadOk, Step, CanStep, Lag;
    StepCounted(s, t, w);
    StepKept(s, t, w);
    StepTokens(s, t, w);
    StepReaderWakeups(s, t, w);
    StepWriterWakeups(s, t, w);
    StepThreadOk(s, t, w, t);
    forall u | 0 <= u < |s'.threads|
      ensures ThreadOk(s', u)
    {
      StepThreadOk(s, t, w, u);
    }
  }

  lemma {:induction false} RunInv(tr: seq<State>, k: nat)
    requires Run(tr) && k < |tr|
    ensures Inv(tr[k])
  {
    hide Inv, StepTo;
    if k == 0 {
      InitInv(tr[0]);
    } else {
      RunInv(tr, k - 1);
      assert Next(tr[k - 1], tr[k]);
      var t: nat, w: nat :| StepTo(tr[k - 1], t, w, tr[k]);
      StepInv(tr[k - 1], t, w, tr[k]);
    }
  }

  // ---------------------------------------------------------------- what the queues guarantee

  /** In every interleaving of every kind of queue: what was taken out, followed by what is linked in, is what
      was put in, in that order; the list never outgrows max_count; count follows it exactly outside the
      critical section; no assert fails, and a thread about to take the first node finds one. */
  lemma BoundedFifo(tr: seq<State>, k: nat)
    requires Run(tr) && k < |tr|
    ensures
      var s := tr[k];
      && s.added == s.taken + s.list && |s.list| <= s.max && 0 <= s.count <= s.max && !s.broken
      && (s.owner.None? ==> s.count == |s.list| == |s.added| - |s.taken|)
      && forall t :: 0 <= t < |s.threads| && Takes(s.threads[t]) ==> |s.list| > 0
  {
    RunInv(tr, k);
    var s := tr[k];
    forall t | 0 <= t < |s.threads| && Takes(s.threads[t])
      ensures |s.list| > 0
    {
      LinkFits(s, t);
    }
  }

  /** queue_add and queue_get return 0 only in the queues without waiting, and then exactly because the queue
      is full or empty at that moment. */
  lemma RefusedOnlyWhenFull(tr: seq<State>, k: nat, t: nat)
    requires Run(tr) && k < |tr| && t < |tr[k].threads| && tr[k].threads[t].pc.Refuse?
    ensures tr[k].kind.Locked? && |tr[k].list| == if tr[k].threads[t].role.Writer? then tr[k].max else 0
  {
    RunInv(tr, k);
    assert ThreadOk(tr[k], t);
  }

  /** The semaphores account for every place of the queue: free, filled, or in the hands of a thread. */
  lemma TokensBalance(tr: seq<State>, k: nat)
    requires Run(tr) && k < |tr| && tr[k].kind.Semaphore?
    ensures
      var s := tr[k];
      && s.empty + s.full + Counting.Count(s.threads, HasSlot) + Counting.Count(s.threads, HasItem) == s.max
      && |s.list| == s.full + Counting.Count(s.threads, ToTake) + Counting.Count(s.threads, HasPut)
      && s.empty >= 0 && s.full >= 0
  {
    RunInv(tr, k);
  }

  // The thread is outside, asleep, or blocked on a semaphore.
  predicate Resting(s: State, th: Thread)
  {
    th.pc.Idle? || th.pc.Asleep? || (th.pc.SemWait? && (if th.role.Writer? then s.empty else s.full) <= 0)
  }

  predicate Waiting(s: State, th: Thread) { !th.pc.Idle? && Resting(s, th) }

  lemma OwnerInside(s: State)
    requires Inv(s)
    ensures s.owner.Some? ==> s.owner.value < |s.threads| && Inside(s.threads[s.owner.value].pc)
  {
    if s.owner.Some? {
      assert ThreadOk(s, s.owner.value);
    }
  }

  /** No wakeup and no token is lost: once nobody can go on, a reader still waits only because the queue is
      empty, and a writer only because it is full. */
  lemma RestMeansFullOrEmpty(tr: seq<State>, k: nat, t: nat)
    requires Run(tr) && k < |tr| && t < |tr[k].threads| && Waiting(tr[k], tr[k].threads[t])
    requires forall u :: 0 <= u < |tr[k].threads| ==> Resting(tr[k], tr[k].threads[u])
    ensures |tr[k].list| == if tr[k].threads[t].role.Writer? then tr[k].max else 0
  {
    RunInv(tr, k);
    var s := tr[k];
    assert ThreadOk(s, t);
    OwnerInside(s);
    if s.kind.Semaphore? {
      NoneCount(s.threads, HasSlot);
      NoneCount(s.threads, HasItem);
      NoneCount(s.threads, ToTake);
      NoneCount(s.threads, HasPut);
    } else if s.kind.Condvar? {
      assert ReaderAsleep(s.threads[t]) || WriterAsleep(s.threads[t]);
      NoneCount(s.threads, ReaderComing);
      NoneCount(s.threads, WriterComing);
      NoneCount(s.threads, ReaderNotifies);
      NoneCount(s.threads, WriterNotifies);
      CountWitness(s.threads, ReaderAsleep);
      CountWitness(s.threads, WriterAsleep);
    }
  }

  predicate Stalled(s: State, t: int, r: Role)
  {
    0 <= t < |s.threads| && Waiting(s, s.threads[t]) && s.threads[t].role == r
  }

  predicate Lively(s: State, t: int)
  {
    0 <= t < |s.threads| && !Resting(s, s.threads[t])
  }

  /** With max_count at least 1, a reader and a writer never both wait while nobody can go on; and whenever
      some thread is not resting, some such thread can take a step. */
  lemma NeverAllAsleep(tr: seq<State>, k: nat)
    requires Run(tr) && k < |tr| && tr[k].max >= 1
    ensures forall t, u :: Stalled(tr[k], t, Reader) && Stalled(tr[k], u, Writer) ==> exists v :: Lively(tr[k], v)
    ensures (exists v :: Lively(tr[k], v)) ==> exists v :: Lively(tr[k], v) && CanStep(tr[k], v)
  {
    var s := tr[k];
    RunInv(tr, k);
    forall t, u | Stalled(s, t, Reader) && Stalled(s, u, Writer)
      ensures exists v :: Lively(s, v)
    {
      if forall v :: 0 <= v < |s.threads| ==> Resting(s, s.threads[v]) {
        RestMeansFullOrEmpty(tr, k, t);
        RestMeansFullOrEmpty(tr, k, u);
      } else {
        var v :| 0 <= v < |s.threads| && !Resting(s, s.threads[v]);
        assert Lively(s, v);
      }
    }
    if v :| Lively(s, v) {
      var u: nat := if s.owner.Some? then s.owner.value else v;
      assert ThreadOk(s, u);
      if s.threads[u].pc.Link? {
        LinkFits(s, u);
      }
      assert CanStep(s, u) && Lively(s, u);
    }
  }

  // ---------------------------------------------------------------- one writer and one reader

  // At most one thread of each role.
  ghost predicate Solo(s: State)
  {
    forall t, u :: 0 <= t < |s.threads| && 0 <= u < |s.threads| && s.threads[t].role == s.threads[u].role ==> t == u
  }

  // A success whose client has not counted it yet.
  predicate Underway(th: Thread) { th.pc.Count? || th.pc.Notify? || th.pc.Unlock? }

  ghost predicate ClientOk(s: State, t: int)
    requires 0 <= t < |s.threads|
  {
    var th := s.threads[t];
    if th.role.Writer? then |s.added| == th.n + I(Underway(th))
    else |s.taken| == th.n + I(Underway(th)) && (Underway(th) ==> |s.taken| > 0 && th.val == s.taken[|s.taken| - 1])
  }

  ghost predicate Counts(v: seq<int>) { forall j :: 0 <= j < |v| ==> v[j] == j }

  ghost predicate ClientInv(s: State)
  {
    Solo(s) && (forall t :: 0 <= t < |s.threads| ==> ClientOk(s, t)) && Counts(s.added) && !s.error
  }

  lemma ClientThread(s: State, t: nat, w: nat, s': State, u: nat)
    requires Inv(s) && ClientInv(s) && StepTo(s, t, w, s') && u < |s.threads|
    ensures |s'.threads| == |s.threads| && ClientOk(s', u)
  {
    hide Tokens, ReaderWakeups, WriterWakeups, Lag, ThreadOk;
    assert ClientOk(s, t) && ClientOk(s, u);
    assert forall j :: 0 <= j < |s.taken| ==> s.added[j] == s.taken[j];
    StepThreads(s, t, w);
  }

  lemma ClientStep(s: State, t: nat, w: nat, s': State)
    requires Inv(s) && ClientInv(s) && StepTo(s, t, w, s') && Inv(s')
    ensures ClientInv(s')
  {
    hide Tokens, ReaderWakeups, WriterWakeups, Lag, ThreadOk;
    assert ClientOk(s, t);
    StepThreads(s, t, w);
    assert forall j :: 0 <= j < |s.taken| ==> s.added[j] == s.taken[j];
    forall u | 0 <= u < |s'.threads|
      ensures ClientOk(s', u)
    {
      ClientThread(s, t, w, s', u);
    }
  }

  /** With one writer counting up and one reader, as in main, the reader is handed 0, 1, 2 and so on under
      every kind of queue and every interleaving, and never prints ERROR. */
  lemma {:induction false} ReadsInOrder(tr: seq<State>, k: nat)
    requires Run(tr) && k < |tr| && Solo(tr[0])
    ensures ClientInv(tr[k]) && Counts(tr[k].taken)
  {
    RunInv(tr, k);
    if k == 0 {
      hide Inv;
    } else {
      hide StepTo, Inv, ClientOk, Solo;
      ReadsInOrder(tr, k - 1);
      RunInv(tr, k - 1);
      assert Next(tr[k - 1], tr[k]);
      var t: nat, w: nat :| StepTo(tr[k - 1], t, w, tr[k]);
      ClientStep(tr[k - 1], t, w, tr[k]);
    }
    assert forall j :: 0 <= j < |tr[k].taken| ==> tr[k].taken[j] == tr[k].added[j];
  }
}
