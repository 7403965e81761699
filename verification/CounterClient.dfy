/**
 The locks of lab2/src/4 under their client: any number of threads each increment one counter
 INCREMENTS times, under the futex mutex or under the spinlock, one memory access or system call at a time.
 */
module CounterClient {
  import opened Counting

  const STATUS_LOCK := 0
  const STATUS_UNLOCK := 1
  const NO_TID := -1

  datatype Kind = Futex | Spin

  datatype Pc =
    | LoopTest     // i < INCREMENTS
    | Cas          // the compare-and-exchange of mutex_lock or spinlock_lock
    | FutexWait    // about to call FUTEX_WAIT
    | Asleep       // inside FUTEX_WAIT
    | SetTid       // m->tid = gettid()
    | Load         // counter++ reads
    | Store        // counter++ writes
    | OwnerCheck   // mutex_unlock compares tid
    | UnlockCas
    | Wake         // about to call FUTEX_WAKE
    | Finished

  // i is the loop variable, tmp the value counter++ has read, done the number of increments stored.
  datatype Thread = Thread(pc: Pc, i: nat, tmp: int, done: nat)

  /** tid of the thread with index t is t. denied records that an unlock was refused. */
  datatype State = State(kind: Kind, increments: nat, lock: int, tid: int, counter: int, denied: bool,
                         threads: seq<Thread>)

  // ---------------------------------------------------------------- the steps

  // The end of the loop body.
  function Again(th: Thread): Thread { th.(pc := LoopTest, i := th.i + 1) }

  function Woken(th: Thread): Thread { if th.pc.Asleep? then th.(pc := Cas) else th }

  // What thread th does next to itself; shared memory is what it reads.
  function Local(s: State, t: nat): Thread
    requires t < |s.threads|
  {
    var th := s.threads[t];
    match th.pc
    case LoopTest => th.(pc := if th.i < s.increments then Cas else Finished)
    case Cas =>
      if s.lock == STATUS_UNLOCK then th.(pc := if s.kind.Futex? then SetTid else Load)
      else th.(pc := if s.kind.Futex? then FutexWait else Cas)
    case FutexWait => th.(pc := if s.lock == 0 then Asleep else Cas)
    case Asleep => Woken(th)
    case SetTid => th.(pc := Load)
    case Load => th.(pc := Store, tmp := s.counter)
    case Store => th.(pc := if s.kind.Futex? then OwnerCheck else UnlockCas, done := th.done + 1)
    case OwnerCheck => if s.tid == t then th.(pc := UnlockCas) else Again(th)
    case UnlockCas => if s.lock == STATUS_LOCK && s.kind.Futex? then th.(pc := Wake) else Again(th)
    case Wake => Again(th)
    case Finished => th
  }

  /** One step of thread t. An asleep thread steps when a signal interrupts its wait. FUTEX_WAKE wakes
      thread w, which is asleep, or nobody when nobody is. */
  function Step(s: State, t: nat, w: nat): State
    requires t < |s.threads|
  {
    var th, ths := s.threads[t], s.threads[t := Local(s, t)];
    match th.pc
    case Cas => s.(threads := ths, lock := if s.lock == STATUS_UNLOCK then STATUS_LOCK else s.lock)
    case SetTid => s.(threads := ths, tid := t)
    case Store => s.(threads := ths, counter := th.tmp + 1)
    case OwnerCheck => s.(threads := ths, denied := s.denied || s.tid != t)
    case UnlockCas => s.(threads := ths, lock := if s.lock == STATUS_LOCK then STATUS_UNLOCK else s.lock)
    case Wake => s.(threads := if w < |ths| then ths[w := Woken(ths[w])] else ths)
    case _ => s.(threads := ths)
  }

  predicate IsAsleep(th: Thread) { th.pc.Asleep? }

  // FUTEX_WAKE may choose any sleeper and chooses one if there is one.
  ghost predicate MayWake(s: State, w: nat)
  {
    if exists u :: 0 <= u < |s.threads| && IsAsleep(s.threads[u]) then w < |s.threads| && IsAsleep(s.threads[w])
    else w == |s.threads|
  }

  ghost predicate StepTo(s: State, t: nat, w: nat, s': State)
  {
    t < |s.threads| && !s.threads[t].pc.Finished? && (s.threads[t].pc.Wake? ==> MayWake(s, w)) && s' == Step(s, t, w)
  }

  ghost predicate Next(s: State, s': State) { exists t: nat, w: nat :: StepTo(s, t, w, s') }

  ghost predicate Init(s: State)
  {
    && s.lock == STATUS_UNLOCK && s.tid == NO_TID && s.counter == 0 && !s.denied
    && forall t :: 0 <= t < |s.threads| ==> s.threads[t] == Thread(LoopTest, 0, 0, 0)
  }

  ghost predicate Run(tr: seq<State>)
  {
    && |tr| > 0 && Init(tr[0])
    && forall i :: 0 <= i < |tr| - 1 ==> Next(tr[i], tr[i + 1])
  }

  // ---------------------------------------------------------------- the invariant

  predicate Holding(th: Thread)
  {
    th.pc.SetTid? || th.pc.Load? || th.pc.Store? || th.pc.OwnerCheck? || th.pc.UnlockCas?
  }

  // Awake, and about to try for the lock or to wake somebody who will.
  predicate Active(th: Thread) { th.pc.Cas? || th.pc.FutexWait? || th.pc.Wake? }

  function Done(th: Thread): nat { th.done }

  ghost predicate ThreadOk(s: State, t: int)
    requires 0 <= t < |s.threads|
  {
    var th := s.threads[t];
    && th.done == th.i + (if th.pc.OwnerCheck? || th.pc.UnlockCas? || th.pc.Wake? then 1 else 0)
    && th.i <= s.increments && (th.i == s.increments ==> th.pc.LoopTest? || th.pc.Finished?)
    && (th.pc.Finished? ==> th.i == s.increments)
    && (Holding(th) ==> s.lock == STATUS_LOCK)
    && (Holding(th) && !th.pc.SetTid? && s.kind.Futex? ==> s.tid == t)
    && (th.pc.Store? ==> th.tmp == s.counter)
    && (s.kind.Spin? ==> !(th.pc.FutexWait? || th.pc.Asleep? || th.pc.SetTid? || th.pc.OwnerCheck? || th.pc.Wake?))
  }

  ghost predicate Exclusive(s: State)
  {
    forall t, u :: 0 <= t < |s.threads| && 0 <= u < |s.threads| ==>
      Holding(s.threads[t]) && Holding(s.threads[u]) ==> t == u
  }

  ghost predicate Some(s: State, p: Thread -> bool)
  {
    exists t :: 0 <= t < |s.threads| && p(s.threads[t])
  }

  ghost predicate Inv(s: State)
  {
    && (s.lock == STATUS_LOCK || s.lock == STATUS_UNLOCK) && !s.denied
    && (forall t :: 0 <= t < |s.threads| ==> ThreadOk(s, t))
    && Exclusive(s) && (s.lock == STATUS_LOCK ==> Some(s, Holding))
    && (Some(s, IsAsleep) ==> s.lock == STATUS_LOCK || Some(s, Active))
    && s.counter == Sum(s.threads, Done)
  }

  lemma InitInv(s: State)
    requires Init(s)
    ensures Inv(s)
  {
    SumConst(s.threads, Done, 0);
  }

  lemma StepSelf(s: State, t: nat, w: nat, s': State)
    requires Inv(s) && StepTo(s, t, w, s')
    ensures |s'.threads| == |s.threads| && ThreadOk(s', t)
  {
    assert ThreadOk(s, t);
  }

  lemma StepOther(s: State, t: nat, w: nat, s': State, u: nat)
    requires Inv(s) && StepTo(s, t, w, s') && u < |s.threads| && u != t
    ensures |s'.threads| == |s.threads| && ThreadOk(s', u)
  {
    assert ThreadOk(s, t) && ThreadOk(s, u);
  }

  lemma StepExclusive(s: State, t: nat, w: nat, s': State, u: nat, v: nat)
    requires Inv(s) && StepTo(s, t, w, s') && u < |s.threads| && v < |s.threads|
    requires Holding(s'.threads[u]) && Holding(s'.threads[v])
    ensures u == v
  {
    assert ThreadOk(s, t) && ThreadOk(s, u) && ThreadOk(s, v);
  }

  lemma StepHolder(s: State, t: nat, w: nat, s': State)
    requires Inv(s) && StepTo(s, t, w, s')
    ensures s'.lock == STATUS_LOCK ==> Some(s', Holding)
    ensures (s'.lock == STATUS_LOCK || s'.lock == STATUS_UNLOCK) && !s'.denied
  {
    assert ThreadOk(s, t);
    if s'.lock == STATUS_LOCK {
      var h: nat :| h < |s.threads| && if s.lock == STATUS_LOCK then Holding(s.threads[h]) else h == t;
      assert ThreadOk(s, h);
      assert Holding(s'.threads[h]);
    }
  }

  lemma StepSleepers(s: State, t: nat, w: nat, s': State)
    requires Inv(s) && StepTo(s, t, w, s') && Some(s', IsAsleep)
    ensures s'.lock == STATUS_LOCK || Some(s', Active)
  {
    var th := s.threads[t];
    var u :| 0 <= u < |s'.threads| && IsAsleep(s'.threads[u]);
    assert ThreadOk(s, t) && ThreadOk(s, u);
    if th.pc.Wake? {
      assert IsAsleep(s.threads[u]);
      assert Active(s'.threads[w]);
    } else if th.pc.UnlockCas? || th.pc.FutexWait? || th.pc.Asleep? {
      assert s'.lock == STATUS_LOCK || Active(s'.threads[t]);
    } else if s'.lock != STATUS_LOCK {
      assert IsAsleep(s.threads[u]);
      var a :| 0 <= a < |s.threads| && Active(s.threads[a]);
      assert Active(s'.threads[a]);
    }
  }

  lemma StepSum(s: State, t: nat, w: nat, s': State)
    requires Inv(s) && StepTo(s, t, w, s')
    ensures s'.counter == Sum(s'.threads, Done)
  {
    assert ThreadOk(s, t);
    var ths := s.threads[t := Local(s, t)];
    SumUpdate(s.threads, t, Local(s, t), Done);
    if w < |ths| {
      SumUpdate(ths, w, Woken(ths[w]), Done);
    }
  }

  lemma StepInv(s: State, t: nat, w: nat, s': State)
    requires Inv(s) && StepTo(s, t, w, s')
    ensures Inv(s')
  {
    hide Step, Local;
    StepHolder(s, t, w, s');
    StepSum(s, t, w, s');
    StepSelf(s, t, w, s');
    forall u | 0 <= u < |s'.threads| && u != t
      ensures ThreadOk(s', u)
    {
      StepOther(s, t, w, s', u);
    }
    forall u, v | 0 <= u < |s'.threads| && 0 <= v < |s'.threads| && Holding(s'.threads[u]) && Holding(s'.threads[v])
      ensures u == v
    {
      StepExclusive(s, t, w, s', u, v);
    }
    if Some(s', IsAsleep) {
      StepSleepers(s, t, w, s');
    }
  }

  lemma {:induction false} RunInv(tr: seq<State>, k: nat)
    requires Run(tr) && k < |tr|
    ensures Inv(tr[k]) && |tr[k].threads| == |tr[0].threads| && tr[k].increments == tr[0].increments
  {
    if k == 0 {
      InitInv(tr[0]);
    } else {
      RunInv(tr, k - 1);
      assert Next(tr[k - 1], tr[k]);
      var t: nat, w: nat :| StepTo(tr[k - 1], t, w, tr[k]);
      StepInv(tr[k - 1], t, w, tr[k]);
    }
  }

  // ---------------------------------------------------------------- what the locks guarantee

  /** No two threads are ever between a lock and its unlock, and no unlock of the mutex is ever refused. */
  lemma MutualExclusion(tr: seq<State>, k: nat, t: nat, u: nat)
    requires Run(tr) && k < |tr| && t < |tr[k].threads| && u < |tr[k].threads|
    requires Holding(tr[k].threads[t]) && Holding(tr[k].threads[u])
    ensures t == u && !tr[k].denied && tr[k].lock == STATUS_LOCK
  {
    RunInv(tr, k);
    assert ThreadOk(tr[k], t);
  }

  ghost predicate AllFinished(s: State)
  {
    forall t :: 0 <= t < |s.threads| ==> s.threads[t].pc.Finished?
  }

  /** When all N threads have finished their K increments the counter is N * K, under either lock. */
  lemma FinalCount(tr: seq<State>, k: nat)
    requires Run(tr) && k < |tr| && AllFinished(tr[k])
    ensures tr[k].counter == |tr[0].threads| * tr[0].increments
  {
    RunInv(tr, k);
    forall th | th in tr[k].threads
      ensures Done(th) == tr[0].increments
    {
      var t :| 0 <= t < |tr[k].threads| && tr[k].threads[t] == th;
      assert ThreadOk(tr[k], t);
    }
    SumConst(tr[k].threads, Done, tr[0].increments);
  }

  /** Whenever a thread sleeps, the lock is held, or an unlocker is about to wake a sleeper, or an awake
      thread is on its way to the compare-and-exchange; so the unfinished threads never all sleep. */
  lemma NoLostWakeup(tr: seq<State>, k: nat)
    requires Run(tr) && k < |tr| && Some(tr[k], IsAsleep)
    ensures (tr[k].lock == STATUS_LOCK && Some(tr[k], Holding)) || Some(tr[k], Active)
    ensures exists t :: 0 <= t < |tr[k].threads| && !tr[k].threads[t].pc.Finished? && !IsAsleep(tr[k].threads[t])
  {
    RunInv(tr, k);
    var s := tr[k];
    if s.lock == STATUS_LOCK {
      var h :| 0 <= h < |s.threads| && Holding(s.threads[h]);
    } else {
      var a :| 0 <= a < |s.threads| && Active(s.threads[a]);
    }
  }

  // ---------------------------------------------------------------- every run can be finished

  // What thread th still has to do.
  /** FUTEX_WAIT puts a thread to sleep exactly if the lock is taken at that moment. */
  lemma SleepsIfTaken(s: State, t: nat, w: nat)
    requires t < |s.threads| && s.threads[t].pc.FutexWait?
    ensures |Step(s, t, w).threads| == |s.threads|
    ensures Step(s, t, w).threads[t].pc.Asleep? <==> s.lock == STATUS_LOCK
    ensures Step(s, t, w).threads[t].pc.Asleep? || Step(s, t, w).threads[t].pc.Cas?
  {
  }

  /** Threads do sleep: of two threads that count with the futex mutex the second may find the lock taken. */
  lemma SomeoneSleeps(increments: nat) returns (tr: seq<State>)
    requires increments > 0
    ensures Run(tr) && |tr[|tr| - 1].threads| == 2 && Some(tr[|tr| - 1], IsAsleep)
  {
    var th := Thread(LoopTest, 0, 0, 0);
    var s0 := State(Futex, increments, STATUS_UNLOCK, NO_TID, 0, false, [th, th]);
    tr := [s0];
    var s1 := Step(s0, 0, 2);
    tr := OneMore(tr, s1, 0);
    var s2 := Step(s1, 0, 2);
    tr := OneMore(tr, s2, 0);
    var s3 := Step(s2, 1, 2);
    tr := OneMore(tr, s3, 1);
    var s4 := Step(s3, 1, 2);
    tr := OneMore(tr, s4, 1);
    var s5 := Step(s4, 1, 2);
    tr := OneMore(tr, s5, 1);
    assert s5.threads[1].pc == Asleep;
  }

  lemma OneMore(tr: seq<State>, s': State, t: nat) returns (tr': seq<State>)
    requires Run(tr) && StepTo(tr[|tr| - 1], t, 2, s')
    ensures Run(tr') && tr'[|tr'| - 1] == s'
  {
    assert Next(tr[|tr| - 1], s');
    RunGoesOn(tr, s');
    tr' := tr + [s'];
  }

  function Work(th: Thread, k: nat): nat
  {
    match th.pc
    case Finished => 0
    case _ => 1 + 16 * (if th.i < k then k - th.i else 0) + Phase(th.pc)
  }

  function Phase(pc: Pc): nat
  {
    match pc
    case LoopTest => 12
    case Asleep => 11
    case FutexWait => 11
    case Cas => 10
    case SetTid => 9
    case Load => 8
    case Store => 7
    case OwnerCheck => 6
    case UnlockCas => 5
    case Wake => 4
    case Finished => 0
  }

  function WorkOf(k: nat): Thread -> nat { th => Work(th, k) }

  // A thread whose step brings the whole program nearer to its end.
  lemma Useful(s: State) returns (t: nat)
    requires Inv(s) && !AllFinished(s)
    ensures t < |s.threads| && !s.threads[t].pc.Finished?
    ensures Work(Local(s, t), s.increments) < Work(s.threads[t], s.increments)
  {
    var u :| 0 <= u < |s.threads| && !s.threads[u].pc.Finished?;
    if s.lock == STATUS_LOCK {
      t :| t < |s.threads| && Holding(s.threads[t]);
    } else if IsAsleep(s.threads[u]) {
      t :| t < |s.threads| && Active(s.threads[t]);
    } else {
      t := u;
    }
    assert ThreadOk(s, t);
  }

  lemma Sleeper(s: State) returns (w: nat)
    ensures MayWake(s, w)
  {
    if u :| 0 <= u < |s.threads| && IsAsleep(s.threads[u]) {
      w := u;
    } else {
      w := |s.threads|;
    }
  }

  // One step of a useful thread, and what it leaves.
  lemma UsefulStep(s: State) returns (s': State)
    requires Inv(s) && !AllFinished(s)
    ensures Next(s, s') && Sum(s'.threads, WorkOf(s.increments)) < Sum(s.threads, WorkOf(s.increments))
  {
    var t := Useful(s);
    var w := Sleeper(s);
    var f := WorkOf(s.increments);
    s' := Step(s, t, w);
    assert StepTo(s, t, w, s');
    var ths := s.threads[t := Local(s, t)];
    SumUpdate(s.threads, t, Local(s, t), f);
    if w < |ths| {
      SumUpdate(ths, w, Woken(ths[w]), f);
    }
  }

  lemma RunGoesOn(tr: seq<State>, s': State)
    requires Run(tr) && Next(tr[|tr| - 1], s')
    ensures Run(tr + [s']) && tr <= tr + [s']
  {
    hide Next;
  }

  lemma {:induction false} Finish(tr: seq<State>) returns (tr': seq<State>)
    requires Run(tr)
    ensures Run(tr') && tr <= tr'
    ensures AllFinished(tr'[|tr'| - 1])
    decreases Sum(tr[|tr| - 1].threads, WorkOf(tr[|tr| - 1].increments))
  {
    hide Inv, Next, AllFinished;
    var s := tr[|tr| - 1];
    RunInv(tr, |tr| - 1);
    if !AllFinished(s) {
      var s' := UsefulStep(s);
      RunGoesOn(tr, s');
      assert s'.increments == s.increments by {
        RunInv(tr + [s'], |tr|);
      }
      tr' := Finish(tr + [s']);
    } else {
      tr' := tr;
    }
  }

  /** Whatever has happened, the program can still be run to its end, and the counter is then N * K. */
  lemma AlwaysFinishable(tr: seq<State>) returns (tr': seq<State>)
    requires Run(tr)
    ensures Run(tr') && tr <= tr'
    ensures AllFinished(tr'[|tr'| - 1])
    ensures tr'[|tr'| - 1].counter == |tr[0].threads| * tr[0].increments
  {
    tr' := Finish(tr);
    FinalCount(tr', |tr'| - 1);
  }

  // ---------------------------------------------------------------- in memory

  /** The lock word, the owner, the counter and the threads; one method call is one step. */
  class Program {
    const kind: Kind
    const increments: nat
    var lock: int
    var tid: int
    var counter: int
    var denied: bool
    var threads: seq<Thread>

    ghost function View(): State
      reads this
    {
      State(kind, increments, lock, tid, counter, denied, threads)
    }

    // mutex_init or spinlock_init, and main.
    constructor (kind: Kind, n: nat, increments: nat)
      ensures Init(View()) && View().kind == kind && View().increments == increments && |threads| == n
    {
      this.kind := kind;
      this.increments := increments;
      lock := STATUS_UNLOCK;
      tid := NO_TID;
      counter := 0;
      denied := false;
      threads := seq(n, _ => Thread(LoopTest, 0, 0, 0));
    }

    // atomic_compare_exchange_strong on the lock word
    method CompareExchange(expected: int, desired: int) returns (ok: bool)
      modifies this`lock
      ensures ok == (old(lock) == expected) && lock == if ok then desired else old(lock)
    {
      ok := lock == expected;
      if ok {
        lock := desired;
      }
    }

    method Goto(t: nat, pc: Pc)
      requires t < |threads|
      modifies this`threads
      ensures threads == old(threads)[t := old(threads)[t].(pc := pc)]
    {
      threads := threads[t := threads[t].(pc := pc)];
    }

    method EndIteration(t: nat)
      requires t < |threads|
      modifies this`threads
      ensures threads == old(threads)[t := Again(old(threads)[t])]
    {
      threads := threads[t := threads[t].(pc := LoopTest, i := threads[t].i + 1)];
    }

    /** The next statement or system call of thread t. w is the sleeper that FUTEX_WAKE picks, if any. */
    method Act(t: nat, w: nat)
      requires t < |threads|
      modifies this
      ensures View() == Step(old(View()), t, w)
    {
      var th := threads[t];
      match th.pc {
        case LoopTest =>
          if th.i < increments {
            Goto(t, Cas);
          } else {
            Goto(t, Finished);
          }
        case Cas =>
          var ok := CompareExchange(STATUS_UNLOCK, STATUS_LOCK);
          if kind.Futex? {
            Goto(t, if ok then SetTid else FutexWait);
          } else {
            Goto(t, if ok then Load else Cas);
          }
        case FutexWait =>
          Goto(t, if lock == 0 then Asleep else Cas);
        case Asleep =>
          Goto(t, Cas);
        case SetTid =>
          tid := t;
          Goto(t, Load);
        case Load =>
          threads := threads[t := th.(pc := Store, tmp := counter)];
        case Store =>
          counter := th.tmp + 1;
          threads := threads[t := th.(pc := if kind.Futex? then OwnerCheck else UnlockCas, done := th.done + 1)];
        case OwnerCheck =>
          if tid != t {
            denied := true;
            EndIteration(t);
          } else {
            Goto(t, UnlockCas);
          }
        case UnlockCas =>
          var ok := CompareExchange(STATUS_LOCK, STATUS_UNLOCK);
          if ok && kind.Futex? {
            Goto(t, Wake);
          } else {
            EndIteration(t);
          }
        case Wake =>
          EndIteration(t);
          if w < |threads| && threads[w].pc.Asleep? {
            Goto(w, Cas);
          }
        case Finished =>
      }
    }
  }
}
