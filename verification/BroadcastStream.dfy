/**
 What each connection of the broadcast has taken, with any number of subscribers: also when rounds overlap, tasks of
 one subscriber compete for its lock, and the log grows under a worker.
 */
module BroadcastStream {
  import opened Options
  import opened Broadcast

  // A worker that works for a subscriber holds its lock; its place in the log is the subscriber's.
  ghost predicate Serving(s: State, w: int)
    requires 0 <= w < |s.workers|
  {
    var wk := s.workers[w];
    && (!wk.pc.Free? ==> wk.sub < |s.subs|)
    && (HoldsSub(wk.pc) ==> s.subs[wk.sub].lock == Some(w))
    && (wk.pc.Find? || wk.pc.Send? ==> wk.i == s.subs[wk.sub].loaded && wk.last <= |s.chunks|)
    && (wk.pc.Send? && s.subs[wk.sub].sent > 0 ==> wk.i < wk.last)
  }

  ghost predicate Taken(s: State, x: int)
    requires 0 <= x < |s.subs|
  {
    Delivered(s.chunks, s.subs[x]) && LockOk(s, x)
  }

  ghost predicate StreamInv(s: State)
  {
    && (forall w :: 0 <= w < |s.workers| ==> Serving(s, w))
    && (forall x :: 0 <= x < |s.subs| ==> Taken(s, x))
    && (forall x :: x in s.pool ==> x < |s.subs|)
    && (s.leader.Push? ==> s.k <= s.round <= |s.subs|)
  }

  // ---------------------------------------------------------------- the leader

  lemma LeadShape(s: State, data: Option<seq<Byte>>)
    requires CanLead(s) && (s.leader.Push? ==> s.k <= s.round <= |s.subs|)
    ensures
      var s' := Lead(s, data);
      && s'.subs == s.subs && s'.workers == s.workers
      && (s'.chunks == s.chunks || (data.Some? && s'.chunks == s.chunks + [data.value]))
      && (s'.pool == s.pool || (s.k < |s.subs| && s'.pool == s.pool + multiset{s.k}))
      && (s'.leader.Push? ==> s'.k <= s'.round <= |s'.subs|)
  {
  }

  lemma AppendDelivers(chunks: seq<seq<Byte>>, c: seq<Byte>, sub: Sub)
    requires Delivered(chunks, sub)
    ensures Delivered(chunks + [c], sub)
  {
    FlatPrefix(chunks, c, sub.loaded);
  }

  lemma LeadStream(s: State, data: Option<seq<Byte>>)
    requires StreamInv(s) && CanLead(s)
    ensures StreamInv(Lead(s, data))
  {
    hide Lead, Delivered;
    LeadShape(s, data);
    var s' := Lead(s, data);
    forall w | 0 <= w < |s'.workers|
      ensures Serving(s', w)
    {
      assert Serving(s, w);
    }
    forall x | 0 <= x < |s'.subs|
      ensures Taken(s', x)
    {
      assert Taken(s, x);
      if data.Some? {
        AppendDelivers(s.chunks, data.value, s.subs[x]);
      }
    }
  }

  // ---------------------------------------------------------------- the workers

  lemma WorkServing(s: State, w: nat, n: nat, fails: bool)
    requires StreamInv(s) && w < |s.workers| && CanWork(s, w)
    ensures |Work(s, w, n, fails).workers| == |s.workers| && Serving(Work(s, w, n, fails), w)
  {
    assert Serving(s, w);
    assert s.subs[s.workers[w].sub].loaded <= |s.chunks| && LockOk(s, s.workers[w].sub) by {
      assert Taken(s, s.workers[w].sub);
    }
    hide StreamInv, Delivered;
  }

  lemma OthersServing(s: State, w: nat, n: nat, fails: bool, u: nat)
    requires StreamInv(s) && w < |s.workers| && CanWork(s, w) && u < |s.workers| && u != w
    ensures |Work(s, w, n, fails).workers| == |s.workers| && Serving(Work(s, w, n, fails), u)
  {
    assert Serving(s, w) && Serving(s, u);
    WorkShape(s, w, n, fails);
    hide StreamInv, Work;
  }

  lemma WorkTakes(s: State, w: nat, n: nat, fails: bool)
    requires StreamInv(s) && w < |s.workers| && CanWork(s, w) && n > 0
    ensures s.workers[w].sub < |s.subs| == |Work(s, w, n, fails).subs|
    ensures Delivered(s.chunks, Work(s, w, n, fails).subs[s.workers[w].sub])
  {
    assert Serving(s, w);
    var wk, x := s.workers[w], s.workers[w].sub;
    assert Taken(s, x);
    hide StreamInv, Delivered, LockOk;
    WorkShape(s, w, n, fails);
    if wk.pc.Send? && wk.i < wk.last && wk.i < |s.chunks| {
      if s.subs[x].sent >= |s.chunks[s.subs[x].loaded]| {
        LoadedDelivers(s.chunks, s.subs[x]);
      } else {
        SentDelivers(s.chunks, s.subs[x], n, fails);
      }
    }
  }

  lemma WorkLocks(s: State, w: nat, n: nat, fails: bool)
    requires StreamInv(s) && w < |s.workers| && CanWork(s, w) && s.workers[w].sub < |s.subs|
    ensures |Work(s, w, n, fails).subs| == |s.subs| && LockOk(Work(s, w, n, fails), s.workers[w].sub)
  {
    assert Serving(s, w);
    assert LockOk(s, s.workers[w].sub) by {
      assert Taken(s, s.workers[w].sub);
    }
    hide StreamInv;
  }

  lemma OthersLocked(s: State, w: nat, n: nat, fails: bool, x: nat)
    requires StreamInv(s) && w < |s.workers| && CanWork(s, w) && x < |s.subs| && s.workers[w].sub != x
    ensures |Work(s, w, n, fails).subs| == |s.subs| && LockOk(Work(s, w, n, fails), x)
  {
    assert Serving(s, w);
    assert LockOk(s, x) by {
      assert Taken(s, x);
    }
    WorkShape(s, w, n, fails);
    hide StreamInv, Work, Serving;
  }

  lemma WorkStream(s: State, w: nat, n: nat, fails: bool)
    requires StreamInv(s) && w < |s.workers| && CanWork(s, w) && n > 0
    ensures StreamInv(Work(s, w, n, fails))
  {
    WorkTakes(s, w, n, fails);
    WorkShape(s, w, n, fails);
    var s' := Work(s, w, n, fails);
    assert s'.leader.Push? ==> s.leader.Push? by {
      hide StreamInv, Delivered;
    }
    hide Work, CanWork, Serving, Delivered, LockOk;
    forall u | 0 <= u < |s'.workers|
      ensures Serving(s', u)
    {
      if u == w {
        WorkServing(s, w, n, fails);
      } else {
        OthersServing(s, w, n, fails, u);
      }
    }
    forall x | 0 <= x < |s'.subs|
      ensures Taken(s', x)
    {
      assert Taken(s, x);
      if x == s.workers[w].sub {
        WorkLocks(s, w, n, fails);
      } else {
        OthersLocked(s, w, n, fails, x);
      }
    }
  }

  // ---------------------------------------------------------------- tasks and clients

  lemma TakeStream(s: State, w: nat, x: nat)
    requires StreamInv(s) && w < |s.workers| && s.workers[w].pc.Free? && x in s.pool
    ensures StreamInv(s.(pool := s.pool - multiset{x}, workers := s.workers[w := Worker(LockSub, x, 0, 0)]))
  {
    var s' := s.(pool := s.pool - multiset{x}, workers := s.workers[w := Worker(LockSub, x, 0, 0)]);
    hide Delivered;
    forall u | 0 <= u < |s'.workers|
      ensures Serving(s', u)
    {
      assert Serving(s, u);
    }
    forall y | 0 <= y < |s'.subs|
      ensures Taken(s', y)
    {
      assert Taken(s, y);
    }
  }

  lemma JoinStream(s: State)
    requires StreamInv(s) && s.owner.Nobody?
    ensures StreamInv(s.(subs := s.subs + [Sub(0, [], 0, false, None)]))
  {
    var s' := s.(subs := s.subs + [Sub(0, [], 0, false, None)]);
    forall w | 0 <= w < |s'.workers|
      ensures Serving(s', w)
    {
      assert Serving(s, w);
    }
    forall x | 0 <= x < |s'.subs|
      ensures Taken(s', x)
    {
      assert x < |s.subs| ==> Taken(s, x);
    }
  }

  /** Every step keeps the streams in order, whatever the number of subscribers. */
  lemma StepStream(s: State, a: Action, s': State)
    requires StreamInv(s) && Does(s, a, s')
    ensures StreamInv(s')
  {
    hide StreamInv, Lead, Work, CanLead, CanWork;
    match a
    case Call =>
      CallStream(s);
    case LeaderStep(data) => LeadStream(s, data);
    case TakeTask(w, x) => TakeStream(s, w, x);
    case WorkerStep(w, n, fails) => WorkStream(s, w, n, fails);
    case Subscribe => JoinStream(s);
  }

  lemma CallStream(s: State)
    requires StreamInv(s) && s.leader.Idle?
    ensures StreamInv(s.(leader := LockManager))
  {
    var s' := s.(leader := LockManager);
    forall w | 0 <= w < |s'.workers|
      ensures Serving(s', w)
    {
      assert Serving(s, w);
    }
    forall x | 0 <= x < |s'.subs|
      ensures Taken(s', x)
    {
      assert Taken(s, x);
    }
  }

  lemma {:induction false} RunStream(tr: seq<State>, k: nat)
    requires Run(tr) && k < |tr|
    ensures StreamInv(tr[k])
  {
    hide StreamInv, Does;
    if k == 0 {
      InitStream(tr[0]);
    } else {
      RunStream(tr, k - 1);
      assert Next(tr[k - 1], tr[k]);
      var a :| Does(tr[k - 1], a, tr[k]);
      StepStream(tr[k - 1], a, tr[k]);
    }
  }

  lemma InitStream(s: State)
    requires Init(s)
    ensures StreamInv(s)
  {
  }

  /** At every moment of every run, with any number of subscribers, a connection that has not failed has taken exactly
      the chunks counted as loaded, in order, and a part of the next one only while a worker is sending it. */
  lemma StreamInOrder(tr: seq<State>, k: nat, x: nat)
    requires Run(tr) && k < |tr| && x < |tr[k].subs| && !tr[k].subs[x].failed
    ensures
      var s, sub := tr[k], tr[k].subs[x];
      if sub.sent == 0 then
        sub.loaded <= |s.chunks| && sub.received == Flat(s.chunks[..sub.loaded])
      else
        && sub.loaded < |s.chunks| && sub.sent <= |s.chunks[sub.loaded]|
        && sub.received == Flat(s.chunks[..sub.loaded]) + s.chunks[sub.loaded][..sub.sent]
        && sub.lock.Some? && sub.lock.value < |s.workers| && s.workers[sub.lock.value].pc.Send?
  {
    RunStream(tr, k);
    assert Taken(tr[k], x);
  }

  /** Two workers never send to one connection at a time: the second task waits at the subscriber's lock. */
  lemma OneSender(tr: seq<State>, k: nat, w: nat, u: nat)
    requires Run(tr) && k < |tr| && w < |tr[k].workers| && u < |tr[k].workers|
    requires HoldsSub(tr[k].workers[w].pc) && HoldsSub(tr[k].workers[u].pc)
    requires tr[k].workers[w].sub == tr[k].workers[u].sub
    ensures w == u
  {
    RunStream(tr, k);
    assert Serving(tr[k], w) && Serving(tr[k], u);
  }

  // ---------------------------------------------------------------- the manager's lock

  // Who holds the manager's lock.
  ghost predicate Held(s: State)
  {
    && (s.owner.Leader? <==> LeaderHolds(s.leader))
    && (s.owner.ByWorker? ==> s.owner.w < |s.workers|)
    && forall w :: 0 <= w < |s.workers| ==> (HoldsManager(s.workers[w].pc) <==> s.owner == ByWorker(w))
  }

  lemma LeadHeld(s: State, data: Option<seq<Byte>>)
    requires Held(s) && CanLead(s)
    ensures Held(Lead(s, data))
  {
    hide SomeUpToDate, ToChar;
  }

  lemma WorkHeld(s: State, w: nat, n: nat, fails: bool)
    requires Held(s) && StreamInv(s) && w < |s.workers| && CanWork(s, w)
    ensures Held(Work(s, w, n, fails))
  {
    assert Serving(s, w);
    WorkShape(s, w, n, fails);
    hide StreamInv, Serving, Sent, ToChar;
  }

  lemma CallHeld(s: State)
    requires Held(s) && s.leader.Idle?
    ensures Held(s.(leader := LockManager))
  {
  }

  lemma TakeHeld(s: State, w: nat, x: nat)
    requires Held(s) && w < |s.workers| && s.workers[w].pc.Free?
    ensures Held(s.(pool := s.pool - multiset{x}, workers := s.workers[w := Worker(LockSub, x, 0, 0)]))
  {
  }

  lemma JoinHeld(s: State)
    requires Held(s)
    ensures Held(s.(subs := s.subs + [Sub(0, [], 0, false, None)]))
  {
  }

  lemma {:induction false} RunHeld(tr: seq<State>, k: nat)
    requires Run(tr) && k < |tr|
    ensures Held(tr[k])
  {
    hide Held, StreamInv, Does;
    if k == 0 {
      InitHeld(tr[0]);
    } else {
      RunHeld(tr, k - 1);
      RunStream(tr, k - 1);
      assert Next(tr[k - 1], tr[k]);
      var a :| Does(tr[k - 1], a, tr[k]);
      StepHeld(tr[k - 1], a, tr[k]);
    }
  }

  lemma InitHeld(s: State)
    requires Init(s)
    ensures Held(s)
  {
  }

  lemma StepHeld(s: State, a: Action, s': State)
    requires Held(s) && StreamInv(s) && Does(s, a, s')
    ensures Held(s')
  {
    hide Held, StreamInv, Lead, Work, CanLead, CanWork;
    match a
    case Call => CallHeld(s);
    case LeaderStep(data) => LeadHeld(s, data);
    case TakeTask(w, x) => TakeHeld(s, w, x);
    case WorkerStep(w, n, fails) => WorkHeld(s, w, n, fails);
    case Subscribe => JoinHeld(s);
  }

  /** Nobody steps in while another holds the manager's lock, with any number of subscribers. */
  lemma ManagerLocked(tr: seq<State>, k: nat, w: nat)
    requires Run(tr) && k < |tr| && w < |tr[k].workers| && HoldsManager(tr[k].workers[w].pc)
    ensures !LeaderHolds(tr[k].leader)
    ensures forall u :: 0 <= u < |tr[k].workers| && HoldsManager(tr[k].workers[u].pc) ==> u == w
  {
    RunHeld(tr, k);
  }
}
