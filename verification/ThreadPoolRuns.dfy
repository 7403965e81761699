/**
 What becomes of every task pushed to the pool: it is run, once; and as long as the pool has a worker and nobody stops
 it, every run can go on to where all tasks have been run.
 */
module ThreadPoolRuns {
  import opened Counting
  import opened Options
  import opened ThreadPool

  // A worker has taken task x and has not finished it.
  predicate Carries(th: Thread, x: int) { th.role.Worker? && (th.pc.Unlock? || th.pc.Work?) && th.task == x }

  function Carrying(x: int): Thread -> bool { th => Carries(th, x) }

  // The tasks started are those that have been run and those under way.
  ghost predicate Accounted(s: State, x: int)
  {
    multiset(s.started)[x] == multiset(s.ran)[x] + Count(s.threads, Carrying(x))
  }

  lemma {:induction false} CountSame<T>(xs: seq<T>, ys: seq<T>, p: T -> bool)
    requires |xs| == |ys| && forall i :: 0 <= i < |xs| ==> p(xs[i]) == p(ys[i])
    ensures Count(xs, p) == Count(ys, p)
  {
    if xs != [] {
      CountSame(xs[1..], ys[1..], p);
    }
  }

  lemma MovedCarries(s: State, th: Thread, x: int)
    requires th.pc.Take? ==> th.role.Worker? && s.stack != []
    requires th.pc.Idle? ==> !th.role.Worker?
    requires th.pc.Signal? || th.pc.Broadcast? ==> !th.role.Worker?
    ensures I(Carries(Moved(s, th), x)) - I(Carries(th, x)) ==
      if th.pc.Take? then I(s.stack[|s.stack| - 1] == x)
      else if th.pc.Work? && th.role.Worker? then -I(th.task == x)
      else 0
  {
  }

  // What a step adds to the tasks started and run.
  lemma StepLists(s: State, t: nat, w: nat)
    requires t < |s.threads| && CanStep(s, t)
    ensures
      var s', th := Step(s, t, w), s.threads[t];
      && s'.started == (if th.pc.Take? then s.started + [s.stack[|s.stack| - 1]] else s.started)
      && s'.ran == if th.pc.Work? then s.ran + [th.task] else s.ran
  {
    hide Moved, WakeAll;
  }

  lemma StepAccounted(s: State, t: nat, w: nat, x: int)
    requires Inv(s) && Accounted(s, x) && t < |s.threads| && CanStep(s, t)
    ensures Accounted(Step(s, t, w), x)
  {
    var th := s.threads[t];
    assert ThreadOk(s, t);
    StepLists(s, t, w);
    hide Inv;
    if th.pc.Broadcast? {
      BroadcastCarries(s, t, w, x);
    } else {
      StepCount(s, t, w, Carrying(x));
      MovedCarries(s, th, x);
      hide Step, Moved;
    }
  }

  lemma BroadcastCarries(s: State, t: nat, w: nat, x: int)
    requires t < |s.threads| && s.threads[t].pc.Broadcast? && !s.threads[t].role.Worker?
    ensures Count(Step(s, t, w).threads, Carrying(x)) == Count(s.threads, Carrying(x))
  {
    CountSame(Step(s, t, w).threads, s.threads, Carrying(x));
  }

  lemma {:induction false} RunAccounted(tr: seq<State>, k: nat, x: int)
    requires Run(tr) && k < |tr|
    ensures Accounted(tr[k], x)
  {
    hide Inv, StepTo, Accounted;
    if k == 0 {
      InitAccounted(tr[0], x);
    } else {
      RunAccounted(tr, k - 1, x);
      RunInv(tr, k - 1);
      assert Next(tr[k - 1], tr[k]);
      var t: nat, w: nat :| StepTo(tr[k - 1], t, w, tr[k]);
      ToStep(tr[k - 1], t, w, tr[k]);
      StepAccounted(tr[k - 1], t, w, x);
    }
  }

  lemma InitAccounted(s: State, x: int)
    requires Init(s)
    ensures Accounted(s, x)
  {
    NoneCount(s.threads, Carrying(x));
  }

  lemma ToStep(s: State, t: nat, w: nat, s': State)
    requires StepTo(s, t, w, s')
    ensures t < |s.threads| && CanStep(s, t) && s' == Step(s, t, w)
  {
  }

  /** In every run each task pushed, and no other, is in exactly one place: queued, in the hands of one worker, or run,
      once. */
  lemma RunOnce(tr: seq<State>, k: nat, x: int)
    requires Run(tr) && k < |tr|
    ensures multiset(tr[k].stack)[x] + Count(tr[k].threads, Carrying(x)) + multiset(tr[k].ran)[x] ==
      if 0 <= x < tr[k].pushed then 1 else 0
  {
    RunAccounted(tr, k, x);
    StartedOnce(tr, k, x);
  }

  // ---------------------------------------------------------------- all tasks are run

  // How far a thread is from rest, in a pool of n threads.
  function Rank(n: nat, th: Thread): nat
  {
    match th.pc
    case Lock => if th.role.Worker? then 4 else if th.role.Pusher? then 28 else 4 * n + 4
    case Relock => 4
    case Test => 3
    case StopTest => 2
    case Take => 1
    case Push => 27
    case Signal => 6
    case Raise => 4 * n + 3
    case Broadcast => 4 * n + 2
    case Unlock => if th.role.Worker? then 6 else 1
    case Work => 5
    case Leave => 1
    case _ => 0
  }

  function RankIn(n: nat): Thread -> nat { th => Rank(n, th) }

  function Measure(s: State): nat { 20 * |s.stack| + Sum(s.threads, RankIn(|s.threads|)) }

  // Thread v is a worker of the pool.
  predicate HasWorker(s: State, v: nat) { v < |s.threads| && s.threads[v].role.Worker? }

  // Nobody stops the pool, and thread v is a worker of it.
  ghost predicate Open(s: State, v: nat)
  {
    !s.stop && HasWorker(s, v) && forall t :: 0 <= t < |s.threads| ==> !s.threads[t].role.Closer?
  }

  // A pusher that has not pushed yet.
  predicate Pushing(th: Thread) { th.role.Pusher? && (th.pc.Lock? || th.pc.Push?) }

  lemma MovedRank(n: nat, s: State, th: Thread)
    requires !Resting(th) && (th.pc.Take? ==> th.role.Worker? && s.stack != [])
    requires (th.pc.Push? || th.pc.Signal? ==> th.role.Pusher?) && (th.pc.Work? ==> th.role.Worker?)
    requires th.pc.Broadcast? || th.pc.Raise? ==> th.role.Closer?
    ensures Rank(n, Moved(s, th)) < Rank(n, th) + (if th.pc.Take? then 6 else 0)
      - (if th.pc.Push? || th.pc.Signal? then 4 else 0) - (if th.pc.Push? then 16 else 0)
      - (if th.pc.Broadcast? then 4 * n else 0)
    ensures Moved(s, th).role == th.role
    ensures I(Pushing(Moved(s, th))) == I(Pushing(th)) - I(th.pc.Push?)
  {
  }

  lemma {:induction false} WakeAllRank(n: nat, ths: seq<Thread>)
    ensures Sum(WakeAll(ths), RankIn(n)) <= Sum(ths, RankIn(n)) + 4 * |ths|
    ensures Count(WakeAll(ths), Pushing) == Count(ths, Pushing)
  {
    if ths != [] {
      WakeAllRank(n, ths[1..]);
      assert WakeAll(ths) == [Woken(ths[0])] + WakeAll(ths[1..]);
    }
  }

  lemma SumTwo(s: State, t: nat, w: nat)
    requires t < |s.threads| && CanStep(s, t)
    ensures |Step(s, t, w).threads| == |s.threads|
    ensures
      var n, th := |s.threads|, s.threads[t];
      Sum(Step(s, t, w).threads, RankIn(n)) <= Sum(s.threads, RankIn(n)) - Rank(n, th) + Rank(n, Moved(s, th))
        + (if th.pc.Signal? then 4 else 0) + (if th.pc.Broadcast? then 4 * n else 0)
  {
    var f := RankIn(|s.threads|);
    var ths := s.threads[t := Moved(s, s.threads[t])];
    SumUpdate(s.threads, t, Moved(s, s.threads[t]), f);
    if s.threads[t].pc.Broadcast? {
      WakeAllRank(|s.threads|, ths);
    } else {
      StepThreads(s, t, w);
      if Wakes(s, t, w) {
        SumUpdate(ths, w, s.threads[w].(pc := Relock), f);
      }
      hide Step, Moved;
    }
  }

  // What a step does to the pushers that have not pushed.
  lemma PushingStep(s: State, t: nat, w: nat)
    requires Inv(s) && t < |s.threads| && CanStep(s, t) && !Resting(s.threads[t])
    ensures Count(Step(s, t, w).threads, Pushing) == Count(s.threads, Pushing) - I(s.threads[t].pc.Push?)
  {
    var th := s.threads[t];
    assert ThreadOk(s, t);
    MovedRank(0, s, th);
    if th.pc.Broadcast? {
      CountUpdate(s.threads, t, Moved(s, th), Pushing);
      WakeAllRank(0, s.threads[t := Moved(s, th)]);
      hide Inv, Rank;
    } else {
      StepCount(s, t, w, Pushing);
      hide Inv, Step, Moved, Rank;
    }
  }

  // Nobody changes his role.
  lemma RolesStay(s: State, t: nat, w: nat, u: nat)
    requires t < |s.threads| && CanStep(s, t) && u < |s.threads|
    ensures |Step(s, t, w).threads| == |s.threads| && Step(s, t, w).threads[u].role == s.threads[u].role
  {
    hide NextPc;
    if !s.threads[t].pc.Broadcast? {
      StepThreads(s, t, w);
      hide Step;
    }
  }

  lemma StackSize(s: State, t: nat, w: nat)
    requires t < |s.threads| && CanStep(s, t)
    ensures
      var s', pc := Step(s, t, w), s.threads[t].pc;
      && |s'.stack| == |s.stack| + I(pc.Push?) - I(pc.Take?)
      && s'.pushed == s.pushed + I(pc.Push?) && (!pc.Raise? ==> s'.stop == s.stop)
  {
    hide Moved, WakeAll;
  }

  // A thread that is not at rest takes a step.
  lemma LivelyStep(s: State, v: nat, t: nat, w: nat)
    requires Inv(s) && HasWorker(s, v) && Lively(s, t) && CanStep(s, t)
    ensures
      var s' := Step(s, t, w);
      && |s'.threads| == |s.threads| && HasWorker(s', v) && (Open(s, v) ==> Open(s', v)) && Measure(s') < Measure(s)
      && s'.pushed + Count(s'.threads, Pushing) == s.pushed + Count(s.threads, Pushing)
  {
    assert ThreadOk(s, t);
    MovedRank(|s.threads|, s, s.threads[t]);
    SumTwo(s, t, w);
    StackSize(s, t, w);
    PushingStep(s, t, w);
    forall u | 0 <= u < |s.threads|
      ensures Step(s, t, w).threads[u].role == s.threads[u].role
    {
      RolesStay(s, t, w, u);
    }
    hide Inv, Step, Moved, Rank;
  }

  lemma RunGoesOn(tr: seq<State>, t: nat) returns (w: nat)
    requires Run(tr) && t < |tr[|tr| - 1].threads| && CanStep(tr[|tr| - 1], t)
    ensures Run(tr + [Step(tr[|tr| - 1], t, w)])
  {
    var s := tr[|tr| - 1];
    w := 0;
    if u :| 0 <= u < |s.threads| && Sleeps(s.threads[u]) {
      w := u;
    }
    var tr' := tr + [Step(s, t, w)];
    assert StepTo(s, t, w, Step(s, t, w));
    hide StepTo, Step, CanStep, MayWake;
    assert Next(s, tr'[|tr|]);
    forall i | 0 <= i < |tr'| - 1
      ensures Next(tr'[i], tr'[i + 1])
    {
      assert i < |tr| - 1 ==> Next(tr[i], tr[i + 1]);
    }
  }

  function Last(tr: seq<State>): State
    requires tr != []
  {
    tr[|tr| - 1]
  }

  // A longer run in which everybody has come to rest.
  ghost predicate Settles(tr: seq<State>, v: nat, tr': seq<State>)
  {
    && tr != [] && tr' != [] && Run(tr') && tr <= tr' && HasWorker(Last(tr'), v) && (forall u :: !Lively(Last(tr'), u))
    && (Open(Last(tr), v) ==> Open(Last(tr'), v)) && |Last(tr').threads| == |Last(tr).threads|
    && Last(tr').pushed == Last(tr).pushed + Count(Last(tr).threads, Pushing)
    && forall p :: Called(Last(tr), p) ==> Called(Last(tr'), p)
  }

  // Thread p has called destroy_threadpool.
  predicate Called(s: State, p: int) { 0 <= p < |s.threads| && s.threads[p].role.Closer? && !s.threads[p].pc.Idle? }

  lemma CalledStays(s: State, t: nat, w: nat, p: int)
    requires t < |s.threads| && CanStep(s, t) && Called(s, p)
    ensures Called(Step(s, t, w), p)
  {
    if !s.threads[t].pc.Broadcast? {
      StepThreads(s, t, w);
      hide Step;
    }
  }

  lemma OneMore(tr: seq<State>, v: nat) returns (longer: seq<State>)
    requires Run(tr) && HasWorker(Last(tr), v) && exists u :: Lively(Last(tr), u)
    ensures longer != [] && Run(longer) && tr <= longer && HasWorker(Last(longer), v)
    ensures Measure(Last(longer)) < Measure(Last(tr)) && |Last(longer).threads| == |Last(tr).threads|
    ensures Open(Last(tr), v) ==> Open(Last(longer), v)
    ensures
      Last(longer).pushed + Count(Last(longer).threads, Pushing) == Last(tr).pushed + Count(Last(tr).threads, Pushing)
    ensures forall p :: Called(Last(tr), p) ==> Called(Last(longer), p)
  {
    var s := Last(tr);
    RunInv(tr, |tr| - 1);
    NoTaskStranded(tr, |tr| - 1);
    hide Inv, Run, Open, Lively, Measure, Step, CanStep, Called;
    var u :| Lively(s, u) && 0 <= u < |s.threads| && CanStep(s, u) by {
      Whoever(s);
    }
    var w := RunGoesOn(tr, u);
    LivelyStep(s, v, u, w);
    forall p | Called(s, p)
      ensures Called(Step(s, u, w), p)
    {
      CalledStays(s, u, w, p);
    }
    longer := tr + [Step(s, u, w)];
    assert Last(longer) == Step(s, u, w);
  }

  lemma Whoever(s: State)
    requires exists u :: Lively(s, u) && CanStep(s, u)
    ensures exists u :: Lively(s, u) && 0 <= u < |s.threads| && CanStep(s, u)
  {
  }

  lemma {:induction false} GoesToRest(tr: seq<State>, v: nat) returns (tr': seq<State>)
    requires Run(tr) && HasWorker(Last(tr), v)
    ensures Settles(tr, v, tr')
    decreases Measure(Last(tr))
  {
    assert tr != [];
    hide Run, Open, Measure, Lively, Called;
    if exists u :: Lively(Last(tr), u) {
      var longer := OneMore(tr, v);
      tr' := GoesToRest(longer, v);
    } else {
      tr' := tr;
      NoPushers(Last(tr));
    }
  }

  lemma NoPushers(s: State)
    requires forall u :: !Lively(s, u)
    ensures Count(s.threads, Pushing) == 0
  {
    forall t | 0 <= t < |s.threads|
      ensures !Pushing(s.threads[t])
    {
      assert !Lively(s, t);
    }
    NoneCount(s.threads, Pushing);
  }

  /** With a worker in a pool that nobody stops, every run can go on to where nobody has anything left to do; then
      every push that was under way has been made, and every task pushed has been run exactly once. */
  lemma AllTasksRun(tr: seq<State>, v: nat) returns (tr': seq<State>)
    requires Run(tr) && Open(Last(tr), v)
    ensures Settles(tr, v, tr') && Last(tr').stack == []
    ensures forall x :: multiset(Last(tr').ran)[x] == if 0 <= x < Last(tr').pushed then 1 else 0
  {
    tr' := GoesToRest(tr, v);
    var k, s := |tr'| - 1, Last(tr');
    RunInv(tr', k);
    NoTaskStranded(tr', k);
    assert !Lively(s, v) && ThreadOk(s, v);
    forall x
      ensures multiset(s.ran)[x] == if 0 <= x < s.pushed then 1 else 0
    {
      RunOnce(tr', k, x);
      forall t | 0 <= t < |s.threads|
        ensures !Carrying(x)(s.threads[t])
      {
        assert !Lively(s, t);
      }
      NoneCount(s.threads, Carrying(x));
    }
  }

  /** A call of threadpool_push_task pushes one task, and that is run: from where a pusher is about to call, every run
      can go on to where one more task has been pushed and all have been run. */
  lemma PushIsRun(tr: seq<State>, v: nat, p: nat) returns (tr': seq<State>)
    requires Run(tr) && Open(Last(tr), v) && p < |Last(tr).threads|
    requires Last(tr).threads[p].role.Pusher? && Last(tr).threads[p].pc.Idle?
    ensures tr' != [] && Run(tr') && tr <= tr' && Open(Last(tr'), v) && Last(tr').stack == []
    ensures Last(tr').pushed == Last(tr).pushed + Count(Last(tr).threads, Pushing) + 1
    ensures forall x :: multiset(Last(tr').ran)[x] == if 0 <= x < Last(tr').pushed then 1 else 0
  {
    var s := Last(tr);
    var w := RunGoesOn(tr, p);
    StepCount(s, p, w, Pushing);
    var called := tr + [Step(s, p, w)];
    assert Last(called) == Step(s, p, w);
    assert Open(Last(called), v);
    hide Run, Open, Lively, Step;
    tr' := AllTasksRun(called, v);
  }

  /** The task that a worker takes is the last one pushed of those queued. */
  lemma TakesNewest(s: State, t: nat, w: nat, s': State)
    requires Inv(s) && StepTo(s, t, w, s') && s.threads[t].pc.Take?
    ensures |s'.threads| == |s.threads| && s'.threads[t].task in s.stack && s'.threads[t].task !in s'.stack
    ensures s'.started == s.started + [s'.threads[t].task]
    ensures forall y :: y in s.stack ==> y <= s'.threads[t].task
  {
    assert ThreadOk(s, t);
  }

  /** destroy_threadpool called: every run can go on to where the pool is stopped and all workers have ended, so that
      its joins return. */
  lemma CloseEnds(tr: seq<State>, v: nat, p: nat) returns (tr': seq<State>)
    requires Run(tr) && HasWorker(Last(tr), v) && p < |Last(tr).threads| && Last(tr).threads[p].role.Closer?
    ensures tr' != [] && Run(tr') && tr <= tr' && Last(tr').stop
    ensures
      var ths := Last(tr').threads;
      forall t :: 0 <= t < |ths| && ths[t].role.Worker? ==> ths[t].pc.Done?
  {
    var s := Last(tr);
    var called := tr;
    if s.threads[p].pc.Idle? {
      var w := RunGoesOn(tr, p);
      called := tr + [Step(s, p, w)];
      assert Last(called) == Step(s, p, w) && tr <= called;
      RolesStay(s, p, w, v);
    }
    assert Called(Last(called), p);
    hide Run, Lively, Step, Called;
    tr' := GoesToRest(called, v);
    AllEnded(tr', p);
  }

  lemma AllEnded(tr: seq<State>, p: nat)
    requires Run(tr) && (forall u :: !Lively(Last(tr), u)) && Called(Last(tr), p)
    ensures Last(tr).stop
    ensures forall t :: 0 <= t < |Last(tr).threads| && Last(tr).threads[t].role.Worker? ==> Last(tr).threads[t].pc.Done?
  {
    var k, s := |tr| - 1, Last(tr);
    RunInv(tr, k);
    NoTaskStranded(tr, k);
    assert !Lively(s, p) && ThreadOk(s, p);
    forall t | 0 <= t < |s.threads| && s.threads[t].role.Worker?
      ensures s.threads[t].pc.Done?
    {
      assert !Lively(s, t) && ThreadOk(s, t);
    }
  }
}
