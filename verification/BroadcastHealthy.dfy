/**
 When a subscriber counts as failed, and what everybody gets in a broadcast in which no send fails.
 */
module BroadcastHealthy {
  import opened Options
  import opened Broadcast
  import opened BroadcastStream
  import opened BroadcastProgress

  // The step is a send that breaks.
  predicate Breaks(a: Action) { a.WorkerStep? && a.fails }

  lemma FailsOnly(s: State, a: Action, s': State, x: nat)
    requires Does(s, a, s') && x < |s.subs| && !s.subs[x].failed
    ensures x < |s'.subs|
    ensures s'.subs[x].failed ==> Breaks(a) && a.w < |s.workers| && s.workers[a.w].pc.Send? && s.workers[a.w].sub == x
    ensures !Breaks(a) ==> !s'.subs[x].failed
  {
    hide ToChar, SomeUpToDate;
    if a.LeaderStep? {
      LeadSubs(s, a.data);
    }
  }

  lemma LeadSubs(s: State, data: Option<seq<Byte>>)
    requires CanLead(s)
    ensures Lead(s, data).subs == s.subs
  {
  }

  /** A send that does not break adds to what its connection has taken the next bytes of the chunk, at least one and
      as many as the connection takes; the worker stays with its subscriber. One that breaks adds none, and the worker
      gives up. */
  lemma SendAdds(s: State, w: nat, n: nat, fails: bool, s': State)
    requires StreamInv(s) && Does(s, WorkerStep(w, n, fails), s') && s.workers[w].pc.Send?
    requires
      var wk := s.workers[w];
      wk.i < wk.last && wk.sub < |s.subs| && wk.i < |s.chunks| && s.subs[wk.sub].sent < |s.chunks[wk.i]|
    ensures
      var wk, x := s.workers[w], s.workers[w].sub;
      var sub, sub', c := s.subs[x], s'.subs[x], s.chunks[wk.i];
      var end := if sub.sent + n < |c| then sub.sent + n else |c|;
      if fails then sub'.failed && sub'.received == sub.received && s'.workers[w].pc.LockMgr?
      else
        && sub'.failed == sub.failed && s'.workers == s.workers && sub'.loaded == sub.loaded == wk.i
        && sub'.received == sub.received + c[sub.sent..end] && sub'.sent == end > sub.sent
        && |sub'.received| > |sub.received|
  {
    assert Serving(s, w);
    hide StreamInv;
  }

  ghost predicate HealthyNext(s: State, s': State) { exists a :: Does(s, a, s') && !Breaks(a) }

  // No send breaks.
  ghost predicate Healthy(tr: seq<State>)
  {
    forall i :: 0 <= i < |tr| - 1 ==> HealthyNext(tr[i], tr[i + 1])
  }

  /** Nobody fails by himself: without a broken send no subscriber ever counts as failed, whatever parts the sends are
      made in. */
  lemma {:induction false} NobodyFails(tr: seq<State>, k: nat, x: nat)
    requires Run(tr) && Healthy(tr) && k < |tr| && x < |tr[k].subs|
    ensures !tr[k].subs[x].failed
  {
    hide Does, Run;
    assert Init(tr[0]) by {
      RunInit(tr);
    }
    if k > 0 {
      assert HealthyNext(tr[k - 1], tr[k]);
      var a :| Does(tr[k - 1], a, tr[k]) && !Breaks(a);
      if x < |tr[k - 1].subs| {
        NobodyFails(tr, k - 1, x);
        FailsOnly(tr[k - 1], a, tr[k], x);
      } else {
        NewcomerSound(tr[k - 1], a, tr[k], x);
      }
    }
  }

  lemma RunInit(tr: seq<State>)
    requires Run(tr)
    ensures |tr| > 0 && Init(tr[0])
  {
  }

  lemma NewcomerSound(s: State, a: Action, s': State, x: nat)
    requires Does(s, a, s') && |s.subs| <= x < |s'.subs|
    ensures !s'.subs[x].failed
  {
    hide ToChar, SomeUpToDate;
    if a.LeaderStep? {
      LeadSubs(s, a.data);
    }
  }

  // ---------------------------------------------------------------- from __send_chunks to the return

  predicate Serves(pc: LeaderPc) { pc.SetFlag? || InCall(pc) }

  // A call goes on from i to j.
  ghost predicate OneCall(tr: seq<State>, i: nat, j: nat)
  {
    i <= j < |tr| && tr[i].leader.SetFlag? && forall p :: i <= p <= j ==> Serves(tr[p].leader)
  }

  lemma CallStep(s: State, a: Action, s': State)
    requires Does(s, a, s') && Serves(s.leader) && Serves(s'.leader) && (s.leader.SetFlag? ==> s.owner.Leader?)
    ensures |s.subs| <= |s'.subs| && (s'.leader.SetFlag? ==> s.leader.SetFlag? && |s'.subs| == |s.subs|)
    ensures !s'.leader.SetFlag? ==> s'.round == if s.leader.SetFlag? then |s.subs| else s.round
  {
    hide Lead, ToChar, CanLead, Serves;
    if a.LeaderStep? {
      LeadRound(s, a.data);
    } else if a.WorkerStep? {
      WorkRound(s, a.w, a.n, a.fails);
      hide Work;
    }
    SetterServes(s);
  }

  lemma SetterServes(s: State)
    ensures s.leader.SetFlag? ==> Serves(s.leader)
    ensures s.leader.Idle? ==> !Serves(s.leader)
  {
  }

  lemma WorkRound(s: State, w: nat, n: nat, fails: bool)
    requires w < |s.workers| && CanWork(s, w)
    ensures var s' := Work(s, w, n, fails); |s'.subs| == |s.subs| && s'.round == s.round
    ensures Work(s, w, n, fails).leader.SetFlag? <==> s.leader.SetFlag?
  {
  }

  lemma LeadRound(s: State, data: Option<seq<Byte>>)
    requires CanLead(s) && Serves(s.leader)
    ensures var s' := Lead(s, data); s'.subs == s.subs && !s'.leader.SetFlag?
    ensures Lead(s, data).round == if s.leader.SetFlag? then |s.subs| else s.round
  {
  }

  // The round is everybody who was on the list when __send_chunks began.
  lemma {:induction false} RoundIsListed(tr: seq<State>, i: nat, j: nat)
    requires Run(tr) && OneCall(tr, i, j)
    ensures |tr[i].subs| <= |tr[j].subs|
    ensures if tr[j].leader.SetFlag? then |tr[j].subs| == |tr[i].subs| else tr[j].round == |tr[i].subs|
    decreases j
  {
    hide Does, Held;
    if i < j {
      RoundIsListed(tr, i, j - 1);
      RunHeld(tr, j - 1);
      HeldBySetter(tr[j - 1]);
      assert Next(tr[j - 1], tr[j]);
      var a :| Does(tr[j - 1], a, tr[j]);
      CallStep(tr[j - 1], a, tr[j]);
    }
  }

  lemma HeldBySetter(s: State)
    requires Held(s)
    ensures s.leader.SetFlag? ==> s.owner.Leader?
  {
  }

  /** When add_chunk is about to return, everybody who was on the list when its round began has taken the whole stream,
      but for those whose connection has broken; and if no send has broken in the run, simply everybody. */
  lemma ServesListed(tr: seq<State>, i: nat, j: nat)
    requires Run(tr) && RoundsUpTo(tr, 127) && OneCall(tr, i, j) && tr[j].leader.Unlock?
    ensures |tr[i].subs| <= |tr[j].subs|
    ensures forall x :: 0 <= x < |tr[i].subs| && !tr[j].subs[x].failed ==>
      tr[j].subs[x].loaded == |tr[j].chunks| && tr[j].subs[x].received == Flat(tr[j].chunks)
    ensures Healthy(tr) ==> forall x :: 0 <= x < |tr[i].subs| ==> tr[j].subs[x].received == Flat(tr[j].chunks)
  {
    RoundIsListed(tr, i, j);
    BarrierDelivers(tr, j);
    if Healthy(tr) {
      forall x | 0 <= x < |tr[i].subs|
        ensures !tr[j].subs[x].failed
      {
        NobodyFails(tr, j, x);
      }
    }
  }
}
