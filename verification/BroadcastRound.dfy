/**
 How a round of the chunk broadcast begins: the loop of __send_chunks as a whole, in the protocol and in memory.
 */
module BroadcastRound {
  import opened Options
  import opened Broadcast
  import opened ChunkLog
  import opened SubscriberList

  // What the leader's loop comes to when it is followed to its end; nobody can change the list meanwhile.
  ghost function Looped(s: State): State
    requires s.leader.Push? && s.k <= s.round <= |s.subs|
    decreases s.round - s.k
  {
    var s' := Lead(s, None);
    if s'.leader.Push? then Looped(s') else s'
  }

  ghost predicate Behind(s: State, from: int, to: int)
  {
    forall x :: from <= x < to ==> !UpToDate(s, x)
  }

  lemma PushStep(s: State)
    requires s.leader.Push? && s.k <= s.round <= |s.subs|
    ensures Lead(s, None) ==
      if s.k >= s.round then s.(leader := Test)
      else if UpToDate(s, s.k) then s.(leader := Stuck)
      else s.(pool := s.pool + multiset{s.k}, k := s.k + 1)
  {
  }

  /** The loop hangs exactly when it comes to a subscriber who is up to date; otherwise it makes one task for each
      subscriber and leaves everything else as it was. */
  lemma {:induction false} LoopedExactly(s: State)
    requires s.leader.Push? && s.k <= s.round <= |s.subs|
    ensures Looped(s).leader.Stuck? <==> !Behind(s, s.k, s.round)
    ensures Behind(s, s.k, s.round) ==>
      && Looped(s) == s.(leader := Test, k := s.round, pool := Looped(s).pool)
      && forall x: nat :: Looped(s).pool[x] == s.pool[x] + if s.k <= x < s.round then 1 else 0
    decreases s.round - s.k
  {
    hide SomeUpToDate, Lead;
    var s' := Lead(s, None);
    PushStep(s);
    if s'.leader.Push? {
      LoopedExactly(s');
      assert !UpToDate(s, s.k);
      assert forall x :: UpToDate(s', x) <==> UpToDate(s, x);
      if !Behind(s, s.k, s.round) {
        var x :| s.k <= x < s.round && UpToDate(s, x);
        assert UpToDate(s', x);
      }
    } else if s.k < s.round {
      assert UpToDate(s, s.k);
    }
  }

  class Manager {
    const list: List
    const log: Container
    var flag: int

    // create_subscription_manager
    constructor ()
      ensures list.Linked() && log.Valid() && list.subscribers == [] && log.Contents() == [] && flag == 0
    {
      log := new Container();
      list := new List();
      flag := 0;
    }

    /** __send_chunks: sets flag and makes a task for every subscriber in the order of the list; it hangs at the
        first one who is up to date. */
    method SendChunks() returns (tasks: seq<Subscriber>, hangs: bool)
      requires list.Linked() && log.Valid()
      modifies `flag
      ensures flag == ToChar(|list.subscribers|)
      ensures |tasks| <= |list.subscribers| && tasks == list.subscribers[..|tasks|]
      ensures forall t :: t in tasks ==> t.chunkLoaded != |log.Contents()|
      ensures if hangs then |tasks| < |list.subscribers| && list.subscribers[|tasks|].chunkLoaded == |log.Contents()|
              else |tasks| == |list.subscribers|
    {
      tasks, hangs := [], false;
      var current := list.first;
      flag := ToChar(list.count);
      while current != null
        invariant |tasks| <= |list.subscribers| && tasks == list.subscribers[..|tasks|]
        invariant current == if |tasks| < |list.subscribers| then list.subscribers[|tasks|] else null
        invariant forall t :: t in tasks ==> t.chunkLoaded != log.count
        decreases |list.subscribers| - |tasks|
      {
        if current.chunkLoaded == log.count {
          return tasks, true;   // pthread_mutex_lock on the mutex it holds
        }
        tasks := tasks + [current];
        current := current.next;
      }
    }
  }
}
