/**
 The chunk broadcast of lab3/src/chunk/subscription.c, built PARALLEL: one leader appends chunks and
 waits until the upload workers have brought every subscriber of the round up to date, while clients
 go on subscribing.
 */
module Broadcast {
  import opened Counting
  import opened Options

  type Byte = x: int | 0 <= x < 256

  // add_chunk, __send_chunks and the wait, statement by statement.
  datatype LeaderPc =
    | Idle
    | LockManager
    | Append
    | SetFlag
    | Push      // the loop over the subscribers
    | Stuck     // locking the manager lock that the leader holds already
    | Test      // while (manager->flag > 0)
    | Asleep    // inside pthread_cond_wait
    | Relock
    | Unlock

  datatype WorkerPc =
    | Free
    | LockSub
    | Read      // start_chunk and last_chunk
    | Find      // get_chunk
    | Send      // the sending loop
    | LockMgr
    | Decrement
    | Signal
    | UnlockMgr
    | UnlockSub

  // i and last are the locals of the sending loop.
  datatype Worker = Worker(pc: WorkerPc, sub: nat, i: nat, last: nat)

  // received is what the connection has taken so far, sent how much of that belongs to the chunk under way.
  datatype Sub = Sub(loaded: nat, received: seq<Byte>, sent: nat, failed: bool, lock: Option<nat>)

  datatype Owner = Nobody | Leader | ByWorker(w: nat)

  /** pool holds the subscriber of each task that no worker has taken. k is the leader's place in the list, round the
      length of the list when the round began. accepted records that __add_chunk appended, doomed that some
      subscriber was up to date when the round began. */
  datatype State = State(chunks: seq<seq<Byte>>, subs: seq<Sub>, pool: multiset<nat>, flag: int, owner: Owner,
                         leader: LeaderPc, k: nat, round: nat, accepted: bool, doomed: bool, workers: seq<Worker>)

  // The value left in a char.
  function ToChar(n: int): int { (n + 128) % 256 - 128 }

  function Flat(cs: seq<seq<Byte>>): seq<Byte>
  {
    if cs == [] then [] else Flat(cs[..|cs| - 1]) + cs[|cs| - 1]
  }

  // ---------------------------------------------------------------- the steps

  /** What happens next: the leader is called to add data, which __add_chunk refuses if it is None; the leader or
      a worker takes a step; a worker takes a task from the pool; a client subscribes. */
  datatype Action =
    | Call
    | LeaderStep(data: Option<seq<Byte>>)
    | TakeTask(w: nat, sub: nat)
    | WorkerStep(w: nat, n: nat, fails: bool)
    | Subscribe

  predicate CanLead(s: State)
  {
    match s.leader
    case Idle => false
    case LockManager => s.owner.Nobody?
    case Relock => s.owner.Nobody?
    case Stuck => false
    case Push => s.k < s.round ==> s.k < |s.subs|
    case _ => true
  }

  ghost predicate UpToDate(s: State, x: int) { 0 <= x < |s.subs| && s.subs[x].loaded == |s.chunks| }

  ghost predicate SomeUpToDate(s: State) { exists x :: UpToDate(s, x) }

  ghost function Lead(s: State, data: Option<seq<Byte>>): State
    requires CanLead(s)
  {
    match s.leader
    case Idle => s
    case Stuck => s
    case LockManager => s.(owner := Leader, leader := Append)
    case Append =>
      var chunks := if data.Some? then s.chunks + [data.value] else s.chunks;
      s.(chunks := chunks, accepted := data.Some?, leader := SetFlag)
    case SetFlag =>
      s.(flag := ToChar(|s.subs|), k := 0, round := |s.subs|, doomed := SomeUpToDate(s), leader := Push)
    case Push =>
      if s.k >= s.round then s.(leader := Test)
      else if s.subs[s.k].loaded == |s.chunks| then s.(leader := Stuck)
      else s.(pool := s.pool + multiset{s.k}, k := s.k + 1)
    case Test => if s.flag > 0 then s.(owner := Nobody, leader := Asleep) else s.(leader := Unlock)
    case Asleep => s.(leader := Relock)
    case Relock => s.(owner := Leader, leader := Test)
    case Unlock => s.(owner := Nobody, leader := Idle)
  }

  predicate CanWork(s: State, w: nat)
    requires w < |s.workers|
  {
    var wk := s.workers[w];
    match wk.pc
    case Free => false
    case LockSub => wk.sub < |s.subs| && s.subs[wk.sub].lock.None?
    case LockMgr => s.owner.Nobody?
    case _ => wk.sub < |s.subs|
  }

  // send takes n bytes of chunk c, or all that is left of it, or fails.
  function Sent(sub: Sub, c: seq<Byte>, n: nat, fails: bool): Sub
    requires sub.sent <= |c|
  {
    var end := if sub.sent + n <= |c| then sub.sent + n else |c|;
    if fails then sub.(failed := true, sent := 0)
    else sub.(received := sub.received + c[sub.sent..end], sent := end)
  }

  function Work(s: State, w: nat, n: nat, fails: bool): State
    requires w < |s.workers| && CanWork(s, w)
  {
    var wk := s.workers[w];
    match wk.pc
    case LockSub =>
      s.(workers := s.workers[w := wk.(pc := Read)],
      subs := s.subs[wk.sub := s.subs[wk.sub].(lock := Some(w))])
    case Read => s.(workers := s.workers[w := wk.(pc := Find, i := s.subs[wk.sub].loaded, last := |s.chunks|)])
    case Find => s.(workers := s.workers[w := wk.(pc := if wk.i < |s.chunks| then Send else LockMgr)])
    case Send =>
      var sub := s.subs[wk.sub];
      if wk.i >= wk.last || wk.i >= |s.chunks| then s.(workers := s.workers[w := wk.(pc := LockMgr)])
      else if sub.sent >= |s.chunks[wk.i]| then
        s.(workers := s.workers[w := wk.(i := wk.i + 1)],
        subs := s.subs[wk.sub := sub.(loaded := sub.loaded + 1, sent := 0)])
      else
        s.(workers := if fails then s.workers[w := wk.(pc := LockMgr)] else s.workers,
        subs := s.subs[wk.sub := Sent(sub, s.chunks[wk.i], n, fails)])
    case LockMgr => s.(workers := s.workers[w := wk.(pc := Decrement)], owner := ByWorker(w))
    case Decrement => s.(workers := s.workers[w := wk.(pc := Signal)], flag := ToChar(s.flag - 1))
    case Signal =>
      s.(workers := s.workers[w := wk.(pc := UnlockMgr)], leader := if s.leader.Asleep? then Relock else s.leader)
    case UnlockMgr => s.(workers := s.workers[w := wk.(pc := UnlockSub)], owner := Nobody)
    case UnlockSub =>
      s.(workers := s.workers[w := wk.(pc := Free)],
      subs := s.subs[wk.sub := s.subs[wk.sub].(lock := None)])
    case Free => s
  }

  ghost predicate Does(s: State, a: Action, s': State)
  {
    match a
    case Call => s.leader.Idle? && s' == s.(leader := LockManager)
    case LeaderStep(data) => CanLead(s) && s' == Lead(s, data)
    case TakeTask(w, x) =>
      && w < |s.workers| && s.workers[w].pc.Free? && x in s.pool
      && s' == s.(pool := s.pool - multiset{x}, workers := s.workers[w := Worker(LockSub, x, 0, 0)])
    case WorkerStep(w, n, fails) => w < |s.workers| && CanWork(s, w) && n > 0 && s' == Work(s, w, n, fails)
    case Subscribe => s.owner.Nobody? && s' == s.(subs := s.subs + [Sub(0, [], 0, false, None)])
  }

  ghost predicate Next(s: State, s': State) { exists a :: Does(s, a, s') }

  // create_subscription_manager
  ghost predicate Init(s: State)
  {
    && s.chunks == [] && s.subs == [] && s.pool == multiset{} && s.flag == 0 && s.owner.Nobody? && s.leader.Idle?
    && s.k == s.round == 0 && !s.doomed
    && forall w :: 0 <= w < |s.workers| ==> s.workers[w].pc.Free?
  }

  ghost predicate Run(tr: seq<State>)
  {
    && |tr| > 0 && Init(tr[0])
    && forall i :: 0 <= i < |tr| - 1 ==> Next(tr[i], tr[i + 1])
  }

  // ---------------------------------------------------------------- the invariant

  // The worker has not counted its task down yet.
  predicate Active(wk: Worker)
  {
    wk.pc.LockSub? || wk.pc.Read? || wk.pc.Find? || wk.pc.Send? || wk.pc.LockMgr? || wk.pc.Decrement?
  }

  predicate Signals(wk: Worker) { wk.pc.Signal? }

  predicate HoldsSub(pc: WorkerPc) { !pc.Free? && !pc.LockSub? }

  predicate HoldsManager(pc: WorkerPc) { pc.Decrement? || pc.Signal? || pc.UnlockMgr? }

  predicate LeaderHolds(pc: LeaderPc)
  {
    pc.Append? || pc.SetFlag? || pc.Push? || pc.Stuck? || pc.Test? || pc.Unlock?
  }

  predicate InRound(pc: LeaderPc) { pc.Push? || pc.Stuck? || pc.Test? || pc.Asleep? || pc.Relock? }

  // The subscriber has everything, or its connection has failed.
  predicate Served(s: State, x: int) { 0 <= x < |s.subs| && (s.subs[x].failed || s.subs[x].loaded == |s.chunks|) }

  ghost predicate WorkerOk(s: State, w: int)
    requires 0 <= w < |s.workers|
  {
    var wk := s.workers[w];
    && (!wk.pc.Free? ==> wk.sub < |s.subs|)
    && (HoldsSub(wk.pc) ==> s.subs[wk.sub].lock == Some(w))
    && (HoldsManager(wk.pc) <==> s.owner == ByWorker(w))
    && (Active(wk) ==> InRound(s.leader) && wk.sub < s.k && wk.sub !in s.pool)
    && (wk.pc.Find? || wk.pc.Send? ==> wk.i == s.subs[wk.sub].loaded && wk.last == |s.chunks|)
    && (wk.pc.LockMgr? || wk.pc.Decrement? ==> Served(s, wk.sub))
  }

  predicate ActiveOn(s: State, w: int, x: int) { 0 <= w < |s.workers| && Active(s.workers[w]) && s.workers[w].sub == x }

  // A connection that has not failed has taken the chunks loaded, in order, and part of the next one.
  ghost predicate Delivered(chunks: seq<seq<Byte>>, sub: Sub)
  {
    && sub.loaded <= |chunks|
    && (sub.sent > 0 ==> sub.loaded < |chunks| && sub.sent <= |chunks[sub.loaded]|)
    && (!sub.failed ==>
          sub.received == Flat(chunks[..sub.loaded]) + if sub.sent > 0 then chunks[sub.loaded][..sub.sent] else [])
  }

  // The lock of a subscriber belongs to the worker that works for it.
  ghost predicate LockOk(s: State, x: int)
    requires 0 <= x < |s.subs|
  {
    var sub := s.subs[x];
    && (sub.lock.Some? ==>
          sub.lock.value < |s.workers| && s.workers[sub.lock.value].sub == x && HoldsSub(s.workers[sub.lock.value].pc))
    && (sub.sent > 0 ==> sub.lock.Some? && s.workers[sub.lock.value].pc.Send?)
  }

  ghost predicate SubOk(s: State, x: int)
    requires 0 <= x < |s.subs|
  {
    var sub := s.subs[x];
    && Delivered(s.chunks, sub)
    && LockOk(s, x)
    && (InRound(s.leader) && x < s.k ==> x in s.pool || Served(s, x) || exists w :: ActiveOn(s, w, x))
    && (s.accepted && (s.leader.SetFlag? || (s.leader.Push? && x >= s.k)) ==> sub.loaded < |s.chunks|)
    && (s.leader.Unlock? && x < s.round ==> Served(s, x))
  }

  ghost predicate Unique(s: State)
  {
    forall w, u, x :: ActiveOn(s, w, x) && ActiveOn(s, u, x) ==> w == u
  }

  /** flag counts the tasks of the round that are not done. */
  ghost predicate Balance(s: State)
  {
    && (forall x :: x in s.pool ==> x < s.k && s.pool[x] == 1)
    && s.k <= s.round <= |s.subs|
    && (s.leader.Test? || s.leader.Asleep? || s.leader.Relock? || s.leader.Unlock? ==> s.k == s.round)
    && (InRound(s.leader) ==> s.flag <= s.round <= 127)
    && if InRound(s.leader) then s.flag == |s.pool| + Count(s.workers, Active) + (s.round - s.k)
       else s.pool == multiset{} && Count(s.workers, Active) == 0
  }

  ghost predicate Wakeup(s: State)
  {
    s.leader.Asleep? ==> s.flag > 0 || Count(s.workers, Signals) > 0
  }

  ghost predicate Doom(s: State)
  {
    && (s.leader.Push? ==> (s.doomed <==> exists x :: s.k <= x < s.round && UpToDate(s, x)))
    && (s.leader.Test? || s.leader.Asleep? || s.leader.Relock? || s.leader.Unlock? ==> !s.doomed)
    && (s.leader.Stuck? ==> s.doomed && !s.accepted)
  }

  ghost predicate Inv(s: State)
  {
    && (forall w :: 0 <= w < |s.workers| ==> WorkerOk(s, w))
    && (forall x :: 0 <= x < |s.subs| ==> SubOk(s, x))
    && Unique(s) && Balance(s) && Wakeup(s) && Doom(s)
    && (s.owner.Leader? <==> LeaderHolds(s.leader))
    && (s.owner.ByWorker? ==> s.owner.w < |s.workers|)
  }

  lemma InitInv(s: State)
    requires Init(s)
    ensures Inv(s)
  {
    NoneCount(s.workers, Active);
  }

  // ---------------------------------------------------------------- the leader's steps

  // Outside a round nobody works, and so nothing is half sent; the same holds once flag has come down to 0.
  lemma Quiet(s: State)
    requires Inv(s) && (InRound(s.leader) ==> s.leader.Test? && s.flag <= 0)
    ensures forall w :: 0 <= w < |s.workers| ==> !Active(s.workers[w])
    ensures s.pool == multiset{}
    ensures forall x :: 0 <= x < |s.subs| ==> s.subs[x].sent == 0
  {
    CountWitness(s.workers, Active);
    forall x | 0 <= x < |s.subs|
      ensures s.subs[x].sent == 0
    {
      assert SubOk(s, x);
    }
  }

  lemma LeadFrame(s: State, data: Option<seq<Byte>>)
    requires CanLead(s)
    ensures
      var s' := Lead(s, data);
      && s'.workers == s.workers && s'.subs == s.subs
      && (forall w :: s'.owner == ByWorker(w) ==> s.owner == ByWorker(w))
      && (!s.leader.LockManager? && !s.leader.Relock? && !LeaderHolds(s.leader) ==>
            forall w :: s.owner == ByWorker(w) ==> s'.owner == ByWorker(w))
      && (InRound(s.leader) ==>
            && s'.chunks == s.chunks && s.k <= s'.k && (s'.pool == s.pool || s'.pool == s.pool + multiset{s.k})
            && (InRound(s'.leader) || (s.leader.Test? && s.flag <= 0)))
  {
  }

  lemma LeadWorker(s: State, data: Option<seq<Byte>>, w: nat)
    requires Inv(s) && CanLead(s) && w < |s.workers|
    ensures WorkerOk(Lead(s, data), w)
  {
    hide SubOk, Unique, Balance, Wakeup, Doom, Lead;
    assert WorkerOk(s, w);
    LeadFrame(s, data);
    if !InRound(s.leader) || (s.leader.Test? && s.flag <= 0) {
      Quiet(s);
    }
  }

  lemma FlatPrefix(cs: seq<seq<Byte>>, c: seq<Byte>, n: nat)
    requires n <= |cs|
    ensures (cs + [c])[..n] == cs[..n]
  {
  }

  // Once no task is left, everybody in the round has been served.
  lemma RoundOver(s: State, x: nat)
    requires Inv(s) && s.leader.Test? && s.flag <= 0 && x < s.round
    ensures Served(s, x)
  {
    hide WorkerOk, Unique, Wakeup, Doom, Delivered;
    Quiet(s);
    assert SubOk(s, x);
  }

  lemma LeadServes(s: State, data: Option<seq<Byte>>, x: nat)
    requires Inv(s) && CanLead(s) && x < |s.subs|
    ensures
      var s' := Lead(s, data);
      |s'.subs| == |s.subs| &&
      (InRound(s'.leader) && x < s'.k ==> x in s'.pool || Served(s', x) || exists w :: ActiveOn(s', w, x))
  {
    hide WorkerOk, Unique, Wakeup, Doom, Balance, UpToDate, Delivered, Active, HoldsSub, LockOk;
    assert SubOk(s, x);
    if w :| ActiveOn(s, w, x) {
      assert ActiveOn(Lead(s, data), w, x);
    }
  }

  lemma LeadSub(s: State, data: Option<seq<Byte>>, x: nat)
    requires Inv(s) && CanLead(s) && x < |s.subs|
    ensures SubOk(Lead(s, data), x)
  {
    hide WorkerOk, Unique, Wakeup, Doom, Balance, UpToDate, ActiveOn;
    LeadServes(s, data, x);
    assert SubOk(s, x);
    if s.leader.Append? {
      Quiet(s);
      if data.Some? {
        hide Active, HoldsSub;
        FlatPrefix(s.chunks, data.value, s.subs[x].loaded);
      }
    } else {
      hide Delivered, Active, HoldsSub;
      if s.leader.Test? && s.flag <= 0 && x < s.round {
        RoundOver(s, x);
      }
    }
  }

  lemma LeadBalance(s: State, data: Option<seq<Byte>>)
    requires Inv(s) && CanLead(s) && (s.leader.SetFlag? ==> |s.subs| <= 127)
    ensures Balance(Lead(s, data))
  {
    hide WorkerOk, Unique, Wakeup, Doom, SubOk, SomeUpToDate, Active;
    if s.leader.Test? && s.flag <= 0 {
      Quiet(s);
    }
  }

  lemma LeadUnique(s: State, data: Option<seq<Byte>>)
    requires Inv(s) && CanLead(s)
    ensures Unique(Lead(s, data)) && Wakeup(Lead(s, data))
  {
    hide WorkerOk, SubOk, Balance, Doom, UpToDate;
    assert forall w, x :: ActiveOn(Lead(s, data), w, x) <==> ActiveOn(s, w, x);
  }

  lemma LeadDoom(s: State, data: Option<seq<Byte>>)
    requires Inv(s) && CanLead(s)
    ensures Doom(Lead(s, data))
  {
    hide WorkerOk, Unique, Wakeup, Delivered;
    var s' := Lead(s, data);
    if s'.leader.Push? {
      assert forall x :: UpToDate(s', x) <==> UpToDate(s, x);
      if s.leader.Push? {
        assert SubOk(s, s.k);
      }
    } else if s'.leader.Stuck? && s.leader.Push? {
      assert SubOk(s, s.k) && UpToDate(s, s.k);
    }
  }

  lemma LeadInv(s: State, data: Option<seq<Byte>>)
    requires Inv(s) && CanLead(s) && (s.leader.SetFlag? ==> |s.subs| <= 127)
    ensures Inv(Lead(s, data))
  {
    hide WorkerOk, SubOk, Unique, Wakeup, Doom, Balance;
    var s' := Lead(s, data);
    LeadBalance(s, data);
    LeadUnique(s, data);
    LeadDoom(s, data);
    forall w | 0 <= w < |s'.workers|
      ensures WorkerOk(s', w)
    {
      LeadWorker(s, data, w);
    }
    forall x | 0 <= x < |s'.subs|
      ensures SubOk(s', x)
    {
      LeadSub(s, data, x);
    }
  }

  // ---------------------------------------------------------------- the workers' steps

  // A worker that works for a subscriber holds its lock, so it is the only one that does.
  lemma Alone(s: State, w: nat, u: nat)
    requires Inv(s) && w < |s.workers| && u < |s.workers| && HoldsSub(s.workers[w].pc) && HoldsSub(s.workers[u].pc)
    requires s.workers[w].sub == s.workers[u].sub
    ensures w == u
  {
    assert WorkerOk(s, w) && WorkerOk(s, u);
  }

  lemma WorkShape(s: State, w: nat, n: nat, fails: bool)
    requires w < |s.workers| && CanWork(s, w) && s.workers[w].sub < |s.subs|
    ensures
      var s' := Work(s, w, n, fails);
      var wk, x := s.workers[w], s.workers[w].sub;
      && |s'.workers| == |s.workers| && s'.workers == s.workers[w := s'.workers[w]] && s'.workers[w].sub == x
      && |s'.subs| == |s.subs| && s'.subs == s.subs[x := s'.subs[x]]
      && (!HoldsSub(wk.pc) && !wk.pc.LockSub? ==> s'.subs == s.subs)
      && s'.chunks == s.chunks && s'.pool == s.pool && s'.k == s.k && s'.round == s.round && s'.accepted == s.accepted
      && s'.doomed == s.doomed
      && (!wk.pc.Send? ==> s'.subs[x] == s.subs[x].(lock := s'.subs[x].lock))
      && (!wk.pc.Decrement? ==> s'.flag == s.flag)
      && (!wk.pc.Signal? ==> s'.leader == s.leader)
      && (wk.pc.LockMgr? || wk.pc.UnlockMgr? || s'.owner == s.owner)
  {
  }

  lemma WorkOther(s: State, w: nat, n: nat, fails: bool, u: nat)
    requires Inv(s) && w < |s.workers| && CanWork(s, w) && u < |s.workers| && u != w
    ensures |Work(s, w, n, fails).workers| == |s.workers| && WorkerOk(Work(s, w, n, fails), u)
  {
    assert WorkerOk(s, w) && WorkerOk(s, u);
    WorkShape(s, w, n, fails);
    if HoldsSub(s.workers[u].pc) {
      assert s.workers[w].pc.LockSub? || s.workers[w].sub != s.workers[u].sub by {
        if HoldsSub(s.workers[w].pc) && s.workers[w].sub == s.workers[u].sub {
          Alone(s, w, u);
        }
      }
    }
    hide SubOk, Unique, Balance, Wakeup, Doom, Delivered;
  }

  lemma SendSelf(s: State, w: nat, n: nat, fails: bool)
    requires Inv(s) && w < |s.workers| && CanWork(s, w) && s.workers[w].pc.Send?
    ensures |Work(s, w, n, fails).workers| == |s.workers| && WorkerOk(Work(s, w, n, fails), w)
  {
    assert WorkerOk(s, w);
    assert s.subs[s.workers[w].sub].loaded <= |s.chunks| by {
      assert SubOk(s, s.workers[w].sub);
    }
    hide Inv, SubOk, Unique, Balance, Wakeup, Doom, ActiveOn, Delivered, Flat, UpToDate;
  }

  lemma WorkSelf(s: State, w: nat, n: nat, fails: bool)
    requires Inv(s) && w < |s.workers| && CanWork(s, w)
    ensures |Work(s, w, n, fails).workers| == |s.workers| && WorkerOk(Work(s, w, n, fails), w)
  {
    if s.workers[w].pc.Send? {
      SendSelf(s, w, n, fails);
    } else {
      assert WorkerOk(s, w);
      assert s.subs[s.workers[w].sub].loaded <= |s.chunks| by {
        assert SubOk(s, s.workers[w].sub);
      }
      hide Inv, SubOk, Unique, Balance, Wakeup, Doom, ActiveOn, Delivered, Flat, UpToDate, Sent;
    }
  }

  lemma FlatNext(cs: seq<seq<Byte>>, l: nat)
    requires l < |cs|
    ensures Flat(cs[..l + 1]) == Flat(cs[..l]) + cs[l]
  {
    assert cs[..l + 1][..l] == cs[..l];
  }

  // What a send does to the bytes that its connection has taken.
  lemma SentDelivers(chunks: seq<seq<Byte>>, sub: Sub, n: nat, fails: bool)
    requires Delivered(chunks, sub) && sub.loaded < |chunks| && sub.sent < |chunks[sub.loaded]| && n > 0
    ensures Delivered(chunks, Sent(sub, chunks[sub.loaded], n, fails))
  {
    var c := chunks[sub.loaded];
    var end := if sub.sent + n <= |c| then sub.sent + n else |c|;
    assert c[..sub.sent] + c[sub.sent..end] == c[..end];
  }

  lemma LoadedDelivers(chunks: seq<seq<Byte>>, sub: Sub)
    requires Delivered(chunks, sub) && sub.loaded < |chunks| && sub.sent >= |chunks[sub.loaded]|
    ensures Delivered(chunks, sub.(loaded := sub.loaded + 1, sent := 0))
  {
    FlatNext(chunks, sub.loaded);
  }

  lemma WorkDelivers(s: State, w: nat, n: nat, fails: bool)
    requires Inv(s) && w < |s.workers| && CanWork(s, w) && n > 0
    ensures s.workers[w].sub < |s.subs| == |Work(s, w, n, fails).subs|
    ensures Delivered(s.chunks, Work(s, w, n, fails).subs[s.workers[w].sub])
  {
    assert WorkerOk(s, w);
    var x := s.workers[w].sub;
    assert SubOk(s, x);
    hide WorkerOk, SubOk, Unique, Balance, Wakeup, Doom, Delivered;
    WorkShape(s, w, n, fails);
    if s.workers[w].pc.Send? && s.workers[w].i < s.workers[w].last && s.workers[w].i < |s.chunks| {
      assert s.workers[w].i == s.subs[x].loaded by {
        assert WorkerOk(s, w);
      }
      if s.subs[x].sent >= |s.chunks[s.subs[x].loaded]| {
        LoadedDelivers(s.chunks, s.subs[x]);
      } else {
        SentDelivers(s.chunks, s.subs[x], n, fails);
      }
    }
  }

  lemma WorkServes(s: State, w: nat, n: nat, fails: bool, x: nat)
    requires Inv(s) && w < |s.workers| && CanWork(s, w) && x < |s.subs|
    ensures
      var s' := Work(s, w, n, fails);
      InRound(s'.leader) && x < s'.k ==> x in s'.pool || Served(s', x) || exists u :: ActiveOn(s', u, x)
  {
    assert WorkerOk(s, w);
    WorkShape(s, w, n, fails);
    WorkSelf(s, w, n, fails);
    assert SubOk(s, x);
    var s' := Work(s, w, n, fails);
    assert Active(s.workers[w]) && !s.workers[w].pc.Decrement? ==> Active(s'.workers[w]);
    assert Served(s, x) ==> Served(s', x);
    hide WorkerOk, SubOk, Unique, Balance, Wakeup, Doom, Delivered, UpToDate, Work, Served;
    if InRound(s.leader) && x < s.k && x !in s.pool && !Served(s, x) {
      var u :| ActiveOn(s, u, x) by {
        assert SubOk(s, x);
      }
      assert u == w && s.workers[w].pc.Decrement? ==> Served(s, x) by {
        assert WorkerOk(s, w);
      }
      assert ActiveOn(s', u, x);
    }
  }

  // What a worker knows of its subscriber's lock.
  lemma LockFacts(s: State, w: nat)
    requires Inv(s) && w < |s.workers| && CanWork(s, w) && s.workers[w].sub < |s.subs|
    ensures
      var wk, sub := s.workers[w], s.subs[s.workers[w].sub];
      && LockOk(s, wk.sub) && (HoldsSub(wk.pc) ==> sub.lock == Some(w))
      && (wk.pc.Send? && sub.sent > 0 ==> wk.i < wk.last && wk.i < |s.chunks|)
  {
    assert WorkerOk(s, w) && SubOk(s, s.workers[w].sub);
    hide Inv, Served, LockOk, ActiveOn, Flat;
  }

  lemma OwnLock(s: State, w: nat, n: nat, fails: bool)
    requires Inv(s) && w < |s.workers| && CanWork(s, w) && s.workers[w].sub < |s.subs|
    ensures |Work(s, w, n, fails).subs| == |s.subs| && LockOk(Work(s, w, n, fails), s.workers[w].sub)
  {
    hide Inv, ToChar;
    LockFacts(s, w);
  }

  lemma WorkLock(s: State, w: nat, n: nat, fails: bool, x: nat)
    requires Inv(s) && w < |s.workers| && CanWork(s, w) && x < |s.subs|
    ensures |Work(s, w, n, fails).subs| == |s.subs| && LockOk(Work(s, w, n, fails), x)
  {
    assert WorkerOk(s, w) && LockOk(s, x) by {
      assert SubOk(s, x);
    }
    if s.workers[w].sub != x {
      WorkShape(s, w, n, fails);
      hide Inv, Work, WorkerOk, HoldsSub;
    } else {
      OwnLock(s, w, n, fails);
    }
  }

  lemma WorkSub(s: State, w: nat, n: nat, fails: bool, x: nat)
    requires Inv(s) && w < |s.workers| && CanWork(s, w) && n > 0 && x < |s.subs|
    ensures |Work(s, w, n, fails).subs| == |s.subs| && SubOk(Work(s, w, n, fails), x)
  {
    assert WorkerOk(s, w) && SubOk(s, x);
    WorkDelivers(s, w, n, fails);
    WorkServes(s, w, n, fails, x);
    WorkLock(s, w, n, fails, x);
    WorkShape(s, w, n, fails);
    hide Inv, Work, WorkerOk, Unique, Balance, Wakeup, Doom, Delivered, UpToDate, ActiveOn;
  }

  lemma WorkBalance(s: State, w: nat, n: nat, fails: bool)
    requires Inv(s) && w < |s.workers| && CanWork(s, w)
    ensures Balance(Work(s, w, n, fails)) && Wakeup(Work(s, w, n, fails))
  {
    assert WorkerOk(s, w);
    WorkShape(s, w, n, fails);
    var s' := Work(s, w, n, fails);
    CountUpdate(s.workers, w, s'.workers[w], Active);
    CountUpdate(s.workers, w, s'.workers[w], Signals);
    hide WorkerOk, SubOk, Unique, Doom, Delivered, UpToDate;
  }

  lemma WorkUnique(s: State, w: nat, n: nat, fails: bool)
    requires Inv(s) && w < |s.workers| && CanWork(s, w)
    ensures Unique(Work(s, w, n, fails)) && Doom(Work(s, w, n, fails))
  {
    assert WorkerOk(s, w);
    WorkShape(s, w, n, fails);
    var s' := Work(s, w, n, fails);
    assert forall u, x :: ActiveOn(s', u, x) ==> ActiveOn(s, u, x);
    if s.leader.Push? {
      forall x | x >= s.k
        ensures UpToDate(s, x) <==> UpToDate(s', x)
      {
      }
    }
    hide Balance, Wakeup, Delivered, Work;
  }

  lemma WorkInv(s: State, w: nat, n: nat, fails: bool)
    requires Inv(s) && w < |s.workers| && CanWork(s, w) && n > 0
    ensures Inv(Work(s, w, n, fails))
  {
    assert WorkerOk(s, w);
    hide WorkerOk, SubOk, Unique, Wakeup, Doom, Balance;
    WorkShape(s, w, n, fails);
    var s' := Work(s, w, n, fails);
    WorkBalance(s, w, n, fails);
    WorkUnique(s, w, n, fails);
    forall u | 0 <= u < |s'.workers|
      ensures WorkerOk(s', u)
    {
      if u == w {
        WorkSelf(s, w, n, fails);
      } else {
        WorkOther(s, w, n, fails, u);
      }
    }
    forall x | 0 <= x < |s'.subs|
      ensures SubOk(s', x)
    {
      WorkSub(s, w, n, fails, x);
    }
  }

  // ---------------------------------------------------------------- tasks, clients, calls

  lemma TakeInv(s: State, w: nat, x: nat)
    requires Inv(s) && w < |s.workers| && s.workers[w].pc.Free? && x in s.pool
    ensures Inv(s.(pool := s.pool - multiset{x}, workers := s.workers[w := Worker(LockSub, x, 0, 0)]))
  {
    var s' := s.(pool := s.pool - multiset{x}, workers := s.workers[w := Worker(LockSub, x, 0, 0)]);
    CountUpdate(s.workers, w, s'.workers[w], Active);
    CountUpdate(s.workers, w, s'.workers[w], Signals);
    assert |s.pool - multiset{x}| == |s.pool| - 1;
    assert ActiveOn(s', w, x);
    assert WorkerOk(s, w);
    assert forall y :: UpToDate(s', y) <==> UpToDate(s, y);
    hide Delivered, UpToDate, Flat;
    forall u | 0 <= u < |s'.workers|
      ensures WorkerOk(s', u)
    {
      assert WorkerOk(s, u);
    }
    assert Unique(s') by {
      forall u, y | ActiveOn(s', u, y) && u != w
        ensures ActiveOn(s, u, y) && y != x
      {
        assert WorkerOk(s, u);
      }
    }
    forall y | 0 <= y < |s'.subs|
      ensures SubOk(s', y)
    {
      hide Unique, WorkerOk, Balance, Wakeup, Doom;
      assert SubOk(s, y);
      if u :| ActiveOn(s, u, y) {
        assert ActiveOn(s', u, y);
      }
    }
  }

  lemma SubscribeInv(s: State)
    requires Inv(s) && s.owner.Nobody?
    ensures Inv(s.(subs := s.subs + [Sub(0, [], 0, false, None)]))
  {
    var s' := s.(subs := s.subs + [Sub(0, [], 0, false, None)]);
    assert forall w, x :: ActiveOn(s', w, x) <==> ActiveOn(s, w, x);
    hide UpToDate;
    forall w | 0 <= w < |s'.workers|
      ensures WorkerOk(s', w)
    {
      assert WorkerOk(s, w);
    }
    forall x | 0 <= x < |s.subs|
      ensures SubOk(s', x)
    {
      hide WorkerOk, Unique, Balance, Wakeup, Doom, Delivered, ActiveOn;
      assert SubOk(s, x);
    }
    assert SubOk(s', |s.subs|);
  }

  lemma CallInv(s: State)
    requires Inv(s) && s.leader.Idle?
    ensures Inv(s.(leader := LockManager))
  {
    var s' := s.(leader := LockManager);
    assert forall w, x :: ActiveOn(s', w, x) <==> ActiveOn(s, w, x);
    forall w | 0 <= w < |s'.workers|
      ensures WorkerOk(s', w)
    {
      assert WorkerOk(s, w);
    }
    forall x | 0 <= x < |s'.subs|
      ensures SubOk(s', x)
    {
      hide WorkerOk, Unique, Balance, Wakeup, Doom, Delivered, ActiveOn;
      assert SubOk(s, x);
    }
  }

  /** Every step keeps the invariant if no round begins with more than 127 subscribers. */
  lemma StepInv(s: State, a: Action, s': State)
    requires Inv(s) && Does(s, a, s') && (s.leader.SetFlag? && a.LeaderStep? ==> |s.subs| <= 127)
    ensures Inv(s')
  {
    hide Inv, Lead, Work, CanLead, CanWork;
    match a
    case Call => CallInv(s);
    case LeaderStep(data) => LeadInv(s, data);
    case TakeTask(w, x) => TakeInv(s, w, x);
    case WorkerStep(w, n, fails) => WorkInv(s, w, n, fails);
    case Subscribe => SubscribeInv(s);
  }

  // Every round begins with up to n subscribers.
  ghost predicate RoundsUpTo(tr: seq<State>, n: nat)
  {
    forall i :: 0 <= i < |tr| && tr[i].leader.SetFlag? ==> |tr[i].subs| <= n
  }

  lemma {:induction false} RunInv(tr: seq<State>, k: nat)
    requires Run(tr) && RoundsUpTo(tr, 127) && k < |tr|
    ensures Inv(tr[k])
  {
    hide Inv, Does;
    if k == 0 {
      InitInv(tr[0]);
    } else {
      RunInv(tr, k - 1);
      assert Next(tr[k - 1], tr[k]);
      var a :| Does(tr[k - 1], a, tr[k]);
      StepInv(tr[k - 1], a, tr[k]);
    }
  }

  // ---------------------------------------------------------------- what the broadcast guarantees

  /** When add_chunk is about to return, every subscriber of its round whose sends succeeded has taken the whole
      stream, and no task of the round is left. */
  lemma BarrierDelivers(tr: seq<State>, k: nat)
    requires Run(tr) && RoundsUpTo(tr, 127) && k < |tr| && tr[k].leader.Unlock?
    ensures tr[k].pool == multiset{} && forall w :: 0 <= w < |tr[k].workers| ==> !Active(tr[k].workers[w])
    ensures tr[k].round <= |tr[k].subs|
    ensures forall x :: 0 <= x < tr[k].round && !tr[k].subs[x].failed ==>
      tr[k].subs[x].loaded == |tr[k].chunks| && tr[k].subs[x].received == Flat(tr[k].chunks)
  {
    RunInv(tr, k);
    Quiet(tr[k]);
    forall x | 0 <= x < tr[k].round && !tr[k].subs[x].failed
      ensures tr[k].subs[x].loaded == |tr[k].chunks| && tr[k].subs[x].received == Flat(tr[k].chunks)
    {
      assert SubOk(tr[k], x);
      assert tr[k].chunks[..|tr[k].chunks|] == tr[k].chunks;
    }
  }

  /** flag is the number of tasks that are queued or under way, plus those the leader has yet to push; a task
      counts until its worker's own decrement, and no two workers serve the same subscriber. */
  lemma FlagCounts(tr: seq<State>, k: nat)
    requires Run(tr) && RoundsUpTo(tr, 127) && k < |tr| && InRound(tr[k].leader)
    ensures tr[k].flag == |tr[k].pool| + Count(tr[k].workers, Active) + (tr[k].round - tr[k].k)
    ensures 0 <= tr[k].flag <= tr[k].round
    ensures forall w, u, x :: ActiveOn(tr[k], w, x) && ActiveOn(tr[k], u, x) ==> w == u
    ensures forall w, x :: ActiveOn(tr[k], w, x) ==> x !in tr[k].pool
  {
    RunInv(tr, k);
    forall w, x | ActiveOn(tr[k], w, x)
      ensures x !in tr[k].pool
    {
      assert WorkerOk(tr[k], w);
    }
  }

  /** A round locks the manager twice, and so hangs, exactly when the append was refused and some subscriber was
      up to date: after an append nobody is up to date, a round that hangs had such a subscriber, and a round
      that gets past the loop had none. */
  lemma HangsExactly(tr: seq<State>, k: nat)
    requires Run(tr) && RoundsUpTo(tr, 127) && k < |tr|
    ensures tr[k].leader.SetFlag? && tr[k].accepted ==> !SomeUpToDate(tr[k])
    ensures tr[k].leader.Push? && tr[k].accepted ==> !tr[k].doomed
    ensures tr[k].leader.Stuck? ==> tr[k].doomed && !tr[k].accepted
    ensures tr[k].leader.Test? || tr[k].leader.Asleep? || tr[k].leader.Relock? || tr[k].leader.Unlock? ==> !tr[k].doomed
  {
    RunInv(tr, k);
    forall x | UpToDate(tr[k], x)
      ensures SubOk(tr[k], x)
    {
    }
  }

  ghost predicate Works(s: State, w: int) { 0 <= w < |s.workers| && CanWork(s, w) }

  // A worker with a task can go on, or another one that it waits for can.
  lemma SomeWorks(s: State, w: nat)
    requires Inv(s) && w < |s.workers| && !s.workers[w].pc.Free? && !LeaderHolds(s.leader)
    ensures exists u :: Works(s, u)
  {
    assert WorkerOk(s, w);
    var x := s.workers[w].sub;
    assert SubOk(s, x);
    var u: nat := if s.workers[w].pc.LockSub? && s.subs[x].lock.Some? then s.subs[x].lock.value else w;
    assert WorkerOk(s, u);
    var v: nat := if s.owner.ByWorker? then s.owner.w else u;
    assert WorkerOk(s, v);
    assert Works(s, v) || Works(s, u) || Works(s, w);
  }

  // A step that is not a wakeup out of nothing.
  ghost predicate Progress(s: State)
  {
    || (CanLead(s) && !s.leader.Asleep?)
    || (exists w :: Works(s, w))
    || (s.pool != multiset{} && exists w :: 0 <= w < |s.workers| && s.workers[w].pc.Free?)
  }

  // Somebody can take a step, even when the leader sleeps and no wakeup is spurious.
  lemma InvGoesOn(s: State)
    requires Inv(s) && |s.workers| > 0 && !s.leader.Idle? && !s.leader.Stuck?
    ensures Progress(s)
  {
    if s.owner.ByWorker? {
      assert WorkerOk(s, s.owner.w);
      SomeWorks(s, s.owner.w);
    } else if s.leader.Asleep? {
      CountWitness(s.workers, Active);
      CountWitness(s.workers, Signals);
      if w :| 0 <= w < |s.workers| && !s.workers[w].pc.Free? {
        SomeWorks(s, w);
      } else {
        assert s.workers[0].pc.Free?;
      }
    }
  }
}
