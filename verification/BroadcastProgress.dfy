/**
 How long a round of the broadcast can last: every step of the leader or of a worker uses up part of a measure over
 the bytes still to send, the tasks still to do and the program points.
 */
module BroadcastProgress {
  import opened Counting
  import opened Options
  import opened Broadcast
  import opened BroadcastStream

  // The bytes from chunk i on, and one for each chunk.
  function BytesFrom(chunks: seq<seq<Byte>>, i: nat): nat
    decreases |chunks| - i
  {
    if i >= |chunks| then 0 else |chunks[i]| + 1 + BytesFrom(chunks, i + 1)
  }

  function LeaderRank(pc: LeaderPc): nat
  {
    match pc
    case Push => 3
    case Relock => 3
    case Test => 2
    case Asleep => 1
    case Unlock => 1
    case _ => 0
  }

  function TaskCost(s: State, x: nat): nat
    requires x < |s.subs|
  {
    13 + BytesFrom(s.chunks, s.subs[x].loaded)
  }

  // The tasks that are queued and the one that the leader will queue.
  function SubCost(s: State, x: nat): nat
    requires x < |s.subs|
  {
    s.pool[x] * TaskCost(s, x) + if s.leader.Push? && s.k <= x < s.round then TaskCost(s, x) + 1 else 0
  }

  function WorkerCost(s: State, wk: Worker): nat
  {
    var bytes := if wk.sub < |s.subs| then BytesFrom(s.chunks, s.subs[wk.sub].loaded) else 0;
    match wk.pc
    case Free => 0
    case LockSub => 12 + bytes
    case Read => 11 + bytes
    case Find => 10 + bytes
    case Send => 9 + bytes - (if wk.sub < |s.subs| && s.subs[wk.sub].sent <= bytes then s.subs[wk.sub].sent else 0)
    case LockMgr => 8
    case Decrement => 7
    case Signal => 6
    case UnlockMgr => 2
    case UnlockSub => 1
  }

  function Id(n: nat): nat { n }

  function SubCosts(s: State): (costs: seq<nat>)
    ensures |costs| == |s.subs| && forall x :: 0 <= x < |costs| ==> costs[x] == SubCost(s, x)
  {
    seq(|s.subs|, x requires 0 <= x < |s.subs| => SubCost(s, x))
  }

  function WorkerCosts(s: State): (costs: seq<nat>)
    ensures |costs| == |s.workers| && forall w :: 0 <= w < |costs| ==> costs[w] == WorkerCost(s, s.workers[w])
  {
    seq(|s.workers|, w requires 0 <= w < |s.workers| => WorkerCost(s, s.workers[w]))
  }

  // What the workers have to do.
  function ToDo(s: State): nat { Sum(SubCosts(s), Id) + Sum(WorkerCosts(s), Id) }

  function Measure(s: State): nat { LeaderRank(s.leader) + ToDo(s) }

  lemma {:induction false} SumGrows(xs: seq<nat>, ys: seq<nat>)
    requires |xs| <= |ys| && (forall i :: 0 <= i < |xs| ==> xs[i] <= ys[i])
    ensures Sum(xs, Id) <= Sum(ys, Id)
  {
    if xs != [] {
      SumGrows(xs[1..], ys[1..]);
    }
  }

  // ---------------------------------------------------------------- single steps

  predicate InCall(pc: LeaderPc) { InRound(pc) || pc.Unlock? }

  // What the leader changes within a call.
  lemma LeadInCall(s: State, data: Option<seq<Byte>>)
    requires CanLead(s) && InCall(s.leader)
    ensures
      var s' := Lead(s, data);
      && s'.workers == s.workers && s'.subs == s.subs && s'.chunks == s.chunks
      && (s'.leader.Push? ==> s.leader.Push? && s' == s.(pool := s.pool + multiset{s.k}, k := s.k + 1) && s.k < s.round)
      && (!s'.leader.Push? ==> s'.pool == s.pool)
      && (s.leader.Asleep? ==> LeaderRank(s'.leader) == LeaderRank(s.leader) + 2)
      && (!s.leader.Asleep? && !s'.leader.Push? ==> LeaderRank(s'.leader) < LeaderRank(s.leader))
  {
  }

  lemma LeadCosts(s: State, data: Option<seq<Byte>>)
    requires StreamInv(s) && CanLead(s) && InCall(s.leader)
    ensures ToDo(Lead(s, data)) <= ToDo(s)
    ensures if s.leader.Asleep? then Measure(Lead(s, data)) <= Measure(s) + 2 else Measure(Lead(s, data)) < Measure(s)
  {
    PushBounds(s);
    hide StreamInv, Lead, WorkerCost, SubCost;
    LeadInCall(s, data);
    var s' := Lead(s, data);
    SameWorkers(s, s');
    if s'.leader.Push? {
      PushCosts(s);
    } else {
      LoopEnds(s, s');
    }
  }

  lemma PushBounds(s: State)
    requires StreamInv(s)
    ensures s.leader.Push? ==> s.k <= s.round <= |s.subs|
  {
  }

  lemma SameWorkers(s: State, s': State)
    requires s'.workers == s.workers && s'.subs == s.subs && s'.chunks == s.chunks
    ensures WorkerCosts(s') == WorkerCosts(s)
  {
  }

  // Pointwise, of two states with the same subscribers.
  lemma SubsCost(s: State, s': State)
    requires |s'.subs| == |s.subs| && forall x :: 0 <= x < |s.subs| ==> SubCost(s', x) <= SubCost(s, x)
    ensures Sum(SubCosts(s'), Id) <= Sum(SubCosts(s), Id)
  {
    SumGrows(SubCosts(s'), SubCosts(s));
  }

  lemma LoopEnds(s: State, s': State)
    requires s'.subs == s.subs && s'.chunks == s.chunks && s'.pool == s.pool && !s'.leader.Push?
    ensures Sum(SubCosts(s'), Id) <= Sum(SubCosts(s), Id)
  {
    hide BytesFrom;
    SubsCost(s, s');
  }

  // One task more or less of subscriber x.
  lemma OneTask(m: nat, c: nat)
    ensures (m + 1) * c == m * c + c
  {
  }

  lemma PushCosts(s: State)
    requires s.leader.Push? && s.k < s.round <= |s.subs|
    ensures Sum(SubCosts(s.(pool := s.pool + multiset{s.k}, k := s.k + 1)), Id) < Sum(SubCosts(s), Id)
  {
    hide TaskCost;
    var s' := s.(pool := s.pool + multiset{s.k}, k := s.k + 1);
    assert forall x :: 0 <= x < |s.subs| ==> TaskCost(s', x) == TaskCost(s, x) by {
      SameTaskCost(s, s');
    }
    OneTask(s.pool[s.k], TaskCost(s, s.k));
    var c := SubCost(s', s.k);
    assert SubCosts(s') == SubCosts(s)[s.k := c];
    SumUpdate<nat>(SubCosts(s), s.k, c, Id);
  }

  lemma SameTaskCost(s: State, s': State)
    requires s'.subs == s.subs && s'.chunks == s.chunks
    ensures forall x :: 0 <= x < |s.subs| ==> TaskCost(s', x) == TaskCost(s, x)
  {
  }

  lemma TakeCosts(s: State, w: nat, x: nat)
    requires StreamInv(s) && w < |s.workers| && s.workers[w].pc.Free? && x in s.pool
    ensures
      ToDo(s.(pool := s.pool - multiset{x}, workers := s.workers[w := Worker(LockSub, x, 0, 0)])) < ToDo(s)
  {
    assert x < |s.subs|;
    hide StreamInv, TaskCost;
    var s' := s.(pool := s.pool - multiset{x}, workers := s.workers[w := Worker(LockSub, x, 0, 0)]);
    assert forall y :: 0 <= y < |s.subs| ==> TaskCost(s', y) == TaskCost(s, y) by {
      SameTaskCost(s, s');
    }
    OneTask(s.pool[x] - 1, TaskCost(s, x));
    var c, d := SubCost(s', x), WorkerCost(s', s'.workers[w]);
    assert SubCosts(s') == SubCosts(s)[x := c];
    SumUpdate<nat>(SubCosts(s), x, c, Id);
    assert WorkerCosts(s') == WorkerCosts(s)[w := d];
    SumUpdate<nat>(WorkerCosts(s), w, d, Id);
    assert d == TaskCost(s, x) - 1 by {
      TakenCost(s, s', w, x);
    }
  }

  lemma TakenCost(s: State, s': State, w: nat, x: nat)
    requires s'.subs == s.subs && s'.chunks == s.chunks && x < |s.subs| && w < |s'.workers|
    requires s'.workers[w] == Worker(LockSub, x, 0, 0)
    ensures WorkerCost(s', s'.workers[w]) == TaskCost(s, x) - 1
  {
  }

  lemma JoinCosts(s: State)
    requires StreamInv(s) && s.owner.Nobody? && !s.leader.Push?
    ensures ToDo(s.(subs := s.subs + [Sub(0, [], 0, false, None)])) == ToDo(s)
  {
    var s' := s.(subs := s.subs + [Sub(0, [], 0, false, None)]);
    forall w | 0 <= w < |s.workers|
      ensures WorkerCost(s', s.workers[w]) == WorkerCost(s, s.workers[w])
    {
      assert Serving(s, w);
    }
    assert |s.subs| !in s.pool;
    hide StreamInv, BytesFrom;
    forall x | 0 <= x < |s'.subs|
      ensures SubCost(s', x) == if x < |s.subs| then SubCost(s, x) else 0
    {
    }
    assert SubCosts(s') == SubCosts(s) + [0];
    SumAppend(SubCosts(s), 0);
    assert WorkerCosts(s') == WorkerCosts(s);
  }

  lemma {:induction false} SumAppend(xs: seq<nat>, x: nat)
    ensures Sum(xs + [x], Id) == Sum(xs, Id) + x
  {
    if xs == [] {
      assert xs + [x] == [x];
    } else {
      SumAppend(xs[1..], x);
      assert (xs + [x])[1..] == xs[1..] + [x];
    }
  }

  lemma BytesAt(chunks: seq<seq<Byte>>, i: nat)
    requires i < |chunks|
    ensures BytesFrom(chunks, i) == |chunks[i]| + 1 + BytesFrom(chunks, i + 1)
  {
  }

  // A send takes a byte or ends a chunk; every other step brings the worker on.
  lemma SendCosts(s: State, w: nat, n: nat, fails: bool)
    requires StreamInv(s) && w < |s.workers| && CanWork(s, w) && n > 0 && s.workers[w].pc.Send?
    ensures
      var s' := Work(s, w, n, fails);
      |s'.workers| == |s.workers| && WorkerCost(s', s'.workers[w]) < WorkerCost(s, s.workers[w])
  {
    assert Serving(s, w);
    var sub := s.subs[s.workers[w].sub];
    assert sub.sent > 0 ==> sub.loaded < |s.chunks| && sub.sent <= |s.chunks[sub.loaded]| by {
      assert Taken(s, s.workers[w].sub);
    }
    if sub.loaded < |s.chunks| {
      BytesAt(s.chunks, sub.loaded);
    }
    hide StreamInv, BytesFrom;
  }

  lemma WorkCost(s: State, w: nat, n: nat, fails: bool)
    requires StreamInv(s) && w < |s.workers| && CanWork(s, w) && n > 0
    ensures
      var s' := Work(s, w, n, fails);
      && |s'.workers| == |s.workers|
      && WorkerCost(s', s'.workers[w]) < WorkerCost(s, s.workers[w])
      && WorkerCost(s', s'.workers[w]) + LeaderRank(s'.leader) < WorkerCost(s, s.workers[w]) + LeaderRank(s.leader)
  {
    assert Serving(s, w);
    if s.workers[w].pc.Send? {
      SendCosts(s, w, n, fails);
      hide WorkerCost, StreamInv;
    } else {
      hide StreamInv, Sent, BytesFrom;
    }
  }

  // What a worker's step does to the bytes that the tasks of its subscriber have to send.
  lemma WorkLoads(s: State, w: nat, n: nat, fails: bool)
    requires StreamInv(s) && w < |s.workers| && CanWork(s, w)
    ensures
      var s', x := Work(s, w, n, fails), s.workers[w].sub;
      && x < |s.subs| == |s'.subs|
      && BytesFrom(s.chunks, s'.subs[x].loaded) <= BytesFrom(s.chunks, s.subs[x].loaded)
  {
    assert Serving(s, w);
    WorkShape(s, w, n, fails);
    if s.workers[w].pc.Send? && s.workers[w].i < |s.chunks| {
      BytesAt(s.chunks, s.workers[w].i);
    }
    hide StreamInv, BytesFrom;
  }

  lemma WorkCosts(s: State, w: nat, n: nat, fails: bool)
    requires StreamInv(s) && w < |s.workers| && CanWork(s, w) && n > 0
    ensures ToDo(Work(s, w, n, fails)) < ToDo(s) && Measure(Work(s, w, n, fails)) < Measure(s)
  {
    assert Serving(s, w);
    WorkShape(s, w, n, fails);
    WorkCost(s, w, n, fails);
    var s' := Work(s, w, n, fails);
    var c := WorkerCost(s', s'.workers[w]);
    forall u | 0 <= u < |s.workers| && u != w
      ensures WorkerCost(s', s'.workers[u]) <= WorkerCost(s, s.workers[u])
    {
      OthersCost(s, w, n, fails, u);
    }
    forall x | 0 <= x < |s.subs|
      ensures SubCost(s', x) <= SubCost(s, x)
    {
      TasksCost(s, w, n, fails, x);
    }
    hide StreamInv, Work, WorkerCost, SubCost;
    SumGrows(WorkerCosts(s'), WorkerCosts(s)[w := c]);
    SumUpdate<nat>(WorkerCosts(s), w, c, Id);
    SubsCost(s, s');
  }

  lemma OthersCost(s: State, w: nat, n: nat, fails: bool, u: nat)
    requires StreamInv(s) && w < |s.workers| && CanWork(s, w) && u < |s.workers| && u != w
    ensures |Work(s, w, n, fails).workers| == |s.workers|
    ensures
      var s' := Work(s, w, n, fails);
      WorkerCost(s', s'.workers[u]) <= WorkerCost(s, s.workers[u])
  {
    assert Serving(s, w) && Serving(s, u);
    WorkShape(s, w, n, fails);
    WorkLoads(s, w, n, fails);
    hide StreamInv, Work, BytesFrom;
  }

  lemma TasksCost(s: State, w: nat, n: nat, fails: bool, x: nat)
    requires StreamInv(s) && w < |s.workers| && CanWork(s, w) && x < |s.subs|
    ensures |Work(s, w, n, fails).subs| == |s.subs| && SubCost(Work(s, w, n, fails), x) <= SubCost(s, x)
  {
    assert Serving(s, w);
    WorkShape(s, w, n, fails);
    WorkLoads(s, w, n, fails);
    var s' := Work(s, w, n, fails);
    assert TaskCost(s', x) <= TaskCost(s, x);
    assert s'.leader.Push? ==> s.leader.Push?;
    hide StreamInv, Work, TaskCost;
    MoreTasks(s.pool[x], TaskCost(s', x), TaskCost(s, x));
  }

  lemma MoreTasks(m: nat, c: nat, d: nat)
    requires c <= d
    ensures m * c <= m * d
  {
  }

  // ---------------------------------------------------------------- a whole round

  // pthread_cond_wait returns without a signal.
  predicate Spurious(s: State, s': State)
  {
    s.leader.Asleep? && s'.leader.Relock? && s'.workers == s.workers
  }

  // A worker has taken a task or gone on with one; each send changes what its subscriber has.
  predicate WorkerMoves(s: State, s': State)
  {
    s'.workers != s.workers || (s'.subs != s.subs && |s'.subs| == |s.subs|)
  }

  lemma StepCosts(s: State, a: Action, s': State)
    requires StreamInv(s) && Held(s) && Does(s, a, s') && InCall(s.leader)
    ensures ToDo(s') <= ToDo(s) && (WorkerMoves(s, s') ==> ToDo(s') < ToDo(s))
    ensures
      if a.Subscribe? then Measure(s') == Measure(s)
      else if Spurious(s, s') then Measure(s') <= Measure(s) + 2
      else Measure(s') < Measure(s)
    ensures |s'.subs| == |s.subs| + if a.Subscribe? then 1 else 0
  {
    hide StreamInv, ToDo, Lead, Work, CanWork;
    match a
    case Call =>
    case LeaderStep(data) =>
      LeadFrame(s, data);
      WakesSpuriously(s, data);
      LeadCosts(s, data);
    case TakeTask(w, x) => TakeCosts(s, w, x);
    case WorkerStep(w, n, fails) =>
      WorkCosts(s, w, n, fails);
      WorkerOf(s, w);
      WorkShape(s, w, n, fails);
    case Subscribe => JoinCosts(s);
  }

  lemma WakesSpuriously(s: State, data: Option<seq<Byte>>)
    requires CanLead(s)
    ensures s.leader.Asleep? ==> Spurious(s, Lead(s, data))
  {
  }

  lemma WorkerOf(s: State, w: nat)
    requires StreamInv(s) && w < |s.workers| && CanWork(s, w)
    ensures s.workers[w].sub < |s.subs|
  {
    assert Serving(s, w);
  }

  // The steps from i to j but for new subscribers.
  function Moves(tr: seq<State>, i: nat, j: nat): nat
    requires i <= j < |tr|
    decreases j
  {
    if i == j then 0 else Moves(tr, i, j - 1) + if |tr[j].subs| > |tr[j - 1].subs| then 0 else 1
  }

  function SpuriousWakeups(tr: seq<State>, i: nat, j: nat): nat
    requires i <= j < |tr|
    decreases j
  {
    if i == j then 0 else SpuriousWakeups(tr, i, j - 1) + if Spurious(tr[j - 1], tr[j]) then 1 else 0
  }

  function WorkersMoves(tr: seq<State>, i: nat, j: nat): nat
    requires i <= j < |tr|
    decreases j
  {
    if i == j then 0 else WorkersMoves(tr, i, j - 1) + if WorkerMoves(tr[j - 1], tr[j]) then 1 else 0
  }

  /** From the leader's loop to the return of add_chunk, the leader and the workers take no more steps than the
      measure at the beginning and three for each spurious wakeup, with any number of subscribers and whoever
      subscribes meanwhile; and the workers' steps are bounded by what they have to do, however often the leader wakes
      for nothing. With NeverStopped, a round that does not hang ends under every schedule with finitely many spurious
      wakeups. */
  lemma {:induction false} RoundBounded(tr: seq<State>, i: nat, j: nat)
    requires Run(tr) && i <= j < |tr| && forall p :: i <= p < j ==> InCall(tr[p].leader)
    ensures Moves(tr, i, j) + Measure(tr[j]) <= Measure(tr[i]) + 3 * SpuriousWakeups(tr, i, j)
    ensures WorkersMoves(tr, i, j) + ToDo(tr[j]) <= ToDo(tr[i])
    decreases j
  {
    hide Does, StreamInv, Held, ToDo, Measure, Spurious, InCall, WorkerMoves;
    if i < j {
      RoundBounded(tr, i, j - 1);
      RunStream(tr, j - 1);
      RunHeld(tr, j - 1);
      assert Next(tr[j - 1], tr[j]);
      var a :| Does(tr[j - 1], a, tr[j]);
      StepCosts(tr[j - 1], a, tr[j]);
    }
  }
}
