/**
 Serving a stream from the cache: runs of the broadcast in which share_cache is the leader's caller.
 */
module CacheRuns {
  import opened Options
  import opened Broadcast
  import opened BroadcastHealthy
  import opened BroadcastProgress
  import opened BroadcastStream
  import opened ChunkLog

  /** share_cache hands the pieces of the file to add_chunk in order, a whole call each: what a call appends is the
      next piece. A piece is never empty, so the log accepts it. */
  ghost predicate Shares(tr: seq<State>, file: seq<Byte>)
  {
    forall i :: 0 <= i < |tr| - 1 && tr[i].leader.Append? && tr[i + 1].leader.SetFlag? ==>
      |tr[i].chunks| < |Pieces(file)| && tr[i + 1] == Lead(tr[i], Some(Pieces(file)[|tr[i].chunks|]))
  }

  // Between the appends the log does not change, nor what became of the last one.
  lemma OnlyAppends(s: State, a: Action, s': State)
    requires Does(s, a, s')
    ensures
      (s.leader.Append? && s'.leader.SetFlag?) ||
      (s'.chunks == s.chunks && s'.accepted == s.accepted && (Past(s'.leader) ==> Past(s.leader)))
  {
    if a.LeaderStep? {
      LeadOnly(s, a.data);
    }
  }

  lemma LeadOnly(s: State, data: Option<seq<Byte>>)
    requires CanLead(s)
    ensures
      var s' := Lead(s, data);
      if s.leader.Append? then s'.leader.SetFlag?
      else s'.chunks == s.chunks && s'.accepted == s.accepted && (Past(s'.leader) ==> Past(s.leader))
  {
  }

  // The call has appended.
  predicate Past(pc: LeaderPc) { !pc.Idle? && !pc.LockManager? && !pc.Append? }

  // The log holds the first pieces of the file.
  lemma {:induction false} SharesPrefix(tr: seq<State>, file: seq<Byte>, k: nat)
    requires Run(tr) && Shares(tr, file) && k < |tr|
    ensures |tr[k].chunks| <= |Pieces(file)| && tr[k].chunks == Pieces(file)[..|tr[k].chunks|]
    ensures Past(tr[k].leader) ==> tr[k].accepted
  {
    hide Does, Pieces;
    if k > 0 {
      SharesPrefix(tr, file, k - 1);
      assert Next(tr[k - 1], tr[k]);
      var a :| Does(tr[k - 1], a, tr[k]);
      OnlyAppends(tr[k - 1], a, tr[k]);
    }
  }

  /** In every run in which share_cache feeds the broadcast, no call hangs; when a call returns, each subscriber of
      its round whose sends succeeded has the pieces appended so far, and after the last piece the whole file. */
  lemma SharedInOrder(tr: seq<State>, file: seq<Byte>, k: nat)
    requires Run(tr) && RoundsUpTo(tr, 127) && Shares(tr, file) && k < |tr|
    ensures !tr[k].leader.Stuck?
    ensures tr[k].leader.Unlock? ==> tr[k].round <= |tr[k].subs|
    ensures tr[k].leader.Unlock? ==> forall x :: 0 <= x < tr[k].round && !tr[k].subs[x].failed ==>
      && tr[k].subs[x].received <= file
      && (|tr[k].chunks| == |Pieces(file)| ==> tr[k].subs[x].received == file)
  {
    hide Run, Shares, Inv, Pieces;
    SharesPrefix(tr, file, k);
    HangsExactly(tr, k);
    PiecesKeep(file);
    if tr[k].leader.Unlock? {
      BarrierDelivers(tr, k);
      var ps, n := Pieces(file), |tr[k].chunks|;
      FlatAppend(ps[..n], ps[n..]);
      assert ps[..n] + ps[n..] == ps;
    }
  }

  /** If no send breaks, everybody in the round has that. */
  lemma SharedByAll(tr: seq<State>, file: seq<Byte>, k: nat, x: nat)
    requires Run(tr) && RoundsUpTo(tr, 127) && Shares(tr, file) && Healthy(tr)
    requires k < |tr| && tr[k].leader.Unlock? && x < tr[k].round
    ensures x < |tr[k].subs| && tr[k].subs[x].received <= file
    ensures |tr[k].chunks| == |Pieces(file)| ==> tr[k].subs[x].received == file
  {
    SharedInOrder(tr, file, k);
    NobodyFails(tr, k, x);
  }

  // ---------------------------------------------------------------- sharing to the end

  // Pieces are left, or the round of the last one is going on.
  predicate Underway(s: State, file: seq<Byte>)
  {
    |s.chunks| <= |Pieces(file)| && (|s.chunks| < |Pieces(file)| || Past(s.leader))
  }

  // The round of the last piece is over, and add_chunk about to return.
  predicate Shared(s: State, file: seq<Byte>) { |s.chunks| == |Pieces(file)| && s.leader.Unlock? }

  ghost predicate Sharing(tr: seq<State>, file: seq<Byte>)
  {
    && Run(tr) && RoundsUpTo(tr, 127) && Shares(tr, file)
    && |tr[|tr| - 1].workers| > 0 && |tr[|tr| - 1].subs| <= 127 && Underway(tr[|tr| - 1], file)
  }

  // Where the leader is between two appends.
  function Phase(pc: LeaderPc): nat
  {
    match pc
    case SetFlag => 5
    case Idle => 3
    case LockManager => 2
    case Append => 1
    case _ => 4
  }

  function PiecesLeft(s: State, file: seq<Byte>): nat
  {
    if |s.chunks| <= |Pieces(file)| then |Pieces(file)| - |s.chunks| else 0
  }

  ghost predicate Nearer(s: State, s': State, file: seq<Byte>)
  {
    || PiecesLeft(s', file) < PiecesLeft(s, file)
    || (PiecesLeft(s', file) == PiecesLeft(s, file) &&
        (Phase(s'.leader) < Phase(s.leader) || (Phase(s'.leader) == Phase(s.leader) && Measure(s') < Measure(s))))
  }

  lemma GoesOn(tr: seq<State>, file: seq<Byte>, a: Action, s': State)
    requires Sharing(tr, file) && Does(tr[|tr| - 1], a, s') && |s'.subs| <= 127
    requires |s'.workers| > 0 && Underway(s', file)
    requires
      var s := tr[|tr| - 1];
      s.leader.Append? && s'.leader.SetFlag? ==>
        |s.chunks| < |Pieces(file)| && s' == Lead(s, Some(Pieces(file)[|s.chunks|]))
    ensures Sharing(tr + [s'], file)
  {
    hide Does, Pieces;
    var tr' := tr + [s'];
    forall i | 0 <= i < |tr'| - 1
      ensures Next(tr'[i], tr'[i + 1])
    {
      assert i < |tr| - 1 ==> Next(tr[i], tr[i + 1]);
    }
  }

  // A step of the leader between the rounds.
  lemma LeaderOn(s: State, file: seq<Byte>) returns (a: Action, s': State)
    requires Inv(s) && Underway(s, file) && !InCall(s.leader)
    requires s.leader.LockManager? ==> s.owner.Nobody?
    ensures Does(s, a, s') && !Breaks(a) && |s'.subs| == |s.subs| && |s'.workers| == |s.workers|
    ensures Underway(s', file) && Nearer(s, s', file)
    ensures s.leader.Append? ==> s' == Lead(s, Some(Pieces(file)[|s.chunks|]))
  {
    hide Inv, Pieces, Measure;
    if s.leader.Idle? {
      a, s' := Call, s.(leader := LockManager);
    } else {
      var data := if s.leader.Append? then Some(Pieces(file)[|s.chunks|]) else None;
      a, s' := LeaderStep(data), Lead(s, data);
      LeadFrame(s, data);
    }
  }

  // A worker's step, in a round or after it.
  lemma WorkerOn(s: State, file: seq<Byte>, w: nat) returns (a: Action, s': State)
    requires StreamInv(s) && Underway(s, file) && Works(s, w)
    ensures Does(s, a, s') && !Breaks(a) && |s'.subs| == |s.subs| && |s'.workers| == |s.workers|
    ensures Underway(s', file) && Nearer(s, s', file) && !(s.leader.Append? && s'.leader.SetFlag?)
  {
    a, s' := WorkerStep(w, 1, false), Work(s, w, 1, false);
    WorkerOf(s, w);
    WorkShape(s, w, 1, false);
    WorkCosts(s, w, 1, false);
    SignalOnly(s, w);
    hide StreamInv, Work, Pieces, Measure;
  }

  lemma SignalOnly(s: State, w: nat)
    requires w < |s.workers| && CanWork(s, w)
    ensures var pc := Work(s, w, 1, false).leader; pc == s.leader || (s.leader.Asleep? && pc.Relock?)
  {
  }

  // A step within a round.
  lemma RoundOn(s: State, file: seq<Byte>) returns (a: Action, s': State)
    requires StreamInv(s) && Underway(s, file) && InCall(s.leader) && Progress(s) && !Shared(s, file)
    ensures Does(s, a, s') && !Breaks(a) && |s'.subs| == |s.subs| && |s'.workers| == |s.workers|
    ensures Underway(s', file) && Nearer(s, s', file) && !(s.leader.Append? && s'.leader.SetFlag?)
  {
    hide StreamInv, Pieces, Measure;
    if CanLead(s) && !s.leader.Asleep? {
      a, s' := LeaderStep(None), Lead(s, None);
      LeadFrame(s, None);
      LeadCosts(s, None);
    } else if w: nat :| Works(s, w) {
      a, s' := WorkerOn(s, file, w);
    } else {
      var x :| x in s.pool;
      var w: nat :| w < |s.workers| && s.workers[w].pc.Free?;
      a := TakeTask(w, x);
      s' := s.(pool := s.pool - multiset{x}, workers := s.workers[w := Worker(LockSub, x, 0, 0)]);
      TakeCosts(s, w, x);
      MeasureIs(s);
      MeasureIs(s');
    }
  }

  lemma MeasureIs(s: State)
    ensures Measure(s) == LeaderRank(s.leader) + ToDo(s)
  {
  }

  lemma Onward(tr: seq<State>, file: seq<Byte>) returns (s': State)
    requires Sharing(tr, file) && !Shared(tr[|tr| - 1], file)
    ensures Sharing(tr + [s'], file) && Nearer(tr[|tr| - 1], s', file) && HealthyNext(tr[|tr| - 1], s')
  {
    var s, k := tr[|tr| - 1], |tr| - 1;
    RunInv(tr, k);
    RunStream(tr, k);
    SharedInOrder(tr, file, k);
    hide Inv, StreamInv, Pieces, Nearer, Does, Underway, Breaks;
    var a: Action;
    if InCall(s.leader) {
      InvGoesOn(s);
      a, s' := RoundOn(s, file);
    } else if s.leader.LockManager? && !s.owner.Nobody? {
      var w := Holder(s);
      a, s' := WorkerOn(s, file, w);
    } else {
      a, s' := LeaderOn(s, file);
      if s.leader.Append? {
        UnderwayIs(s, file);
      }
    }
    GoesOn(tr, file, a, s');
    assert HealthyNext(s, s');
  }

  lemma UnderwayIs(s: State, file: seq<Byte>)
    requires Underway(s, file) && s.leader.Append?
    ensures |s.chunks| < |Pieces(file)|
  {
  }

  // Somebody who brings on the worker that holds the manager's lock.
  lemma Holder(s: State) returns (u: nat)
    requires Inv(s) && s.leader.LockManager? && !s.owner.Nobody?
    ensures Works(s, u)
  {
    assert WorkerOk(s, s.owner.w);
    SomeWorks(s, s.owner.w);
    u :| Works(s, u);
  }

  lemma HealthyOn(tr: seq<State>, s': State)
    requires tr != [] && HealthyNext(tr[|tr| - 1], s')
    ensures Healthy(tr) ==> Healthy(tr + [s'])
  {
    hide HealthyNext;
  }

  function Last(tr: seq<State>): State
    requires tr != []
  {
    tr[|tr| - 1]
  }

  // A longer run, at whose end the round of the last piece is over, with no more broken sends.
  ghost predicate Completes(tr: seq<State>, file: seq<Byte>, tr': seq<State>)
  {
    && tr' != [] && Sharing(tr', file) && tr <= tr' && Shared(Last(tr'), file)
    && (Healthy(tr) ==> Healthy(tr'))
  }

  lemma OneMore(tr: seq<State>, file: seq<Byte>) returns (longer: seq<State>)
    requires Sharing(tr, file) && !Shared(Last(tr), file)
    ensures longer != [] && tr != [] && Sharing(longer, file) && tr <= longer && (Healthy(tr) ==> Healthy(longer))
    ensures Nearer(Last(tr), Last(longer), file)
  {
    assert tr != [];
    hide Sharing, Shared, Nearer, Healthy, HealthyNext;
    var s' := Onward(tr, file);
    HealthyOn(tr, s');
    longer := tr + [s'];
    assert Last(longer) == s';
  }

  /** Every run that shares the file, unless it has done so, extends without breaking a send to one at whose end the
      round of the last piece is over: then, by SharedInOrder and SharedByAll, the subscribers of that round have the
      whole file. */
  lemma {:induction false} SharesToTheEnd(tr: seq<State>, file: seq<Byte>) returns (tr': seq<State>)
    requires Sharing(tr, file)
    ensures Completes(tr, file, tr')
    decreases PiecesLeft(Last(tr), file), Phase(Last(tr).leader), Measure(Last(tr))
  {
    assert tr != [];
    hide Sharing, Shared, Healthy, Measure, Phase, PiecesLeft;
    if Shared(Last(tr), file) {
      tr' := tr;
    } else {
      var longer := OneMore(tr, file);
      tr' := SharesToTheEnd(longer, file);
    }
  }

  /** A connection served to the end from the cached copy of a stream, whatever its chunks were, has the same bytes
      as one served live. */
  lemma CachedLikeLive(live: seq<State>, i: nat, x: nat, cached: seq<State>, j: nat, y: nat)
    requires Run(live) && RoundsUpTo(live, 127) && i < |live| && live[i].leader.Unlock? && x < live[i].round
    requires Run(cached) && RoundsUpTo(cached, 127) && Shares(cached, Flat(live[i].chunks))
    requires j < |cached| && cached[j].leader.Unlock? && y < cached[j].round
    requires |cached[j].chunks| == |Pieces(Flat(live[i].chunks))|
    ensures x < |live[i].subs| && y < |cached[j].subs|
    ensures !live[i].subs[x].failed && !cached[j].subs[y].failed ==>
      live[i].subs[x].received == cached[j].subs[y].received
  {
    BarrierDelivers(live, i);
    SharedInOrder(cached, Flat(live[i].chunks), j);
  }
}
