/**
 One call of queue_add or queue_get while no other thread takes a step: what it does to a queue with room or with
 items, and to a full or an empty one.
 */
module QueueCalls {
  import opened Counting
  import opened Options
  import opened QueueProtocol

  // Steps of thread t only, from s to s'.
  ghost predicate Takes(tr: seq<State>, t: nat, s: State, s': State)
  {
    && tr != [] && tr[0] == s && tr[|tr| - 1] == s'
    && forall i :: 0 <= i < |tr| - 1 ==> Goes(tr[i], t, tr[i + 1])
  }

  ghost predicate Goes(s: State, t: nat, s': State) { exists w: nat :: StepTo(s, t, w, s') }

  lemma Stay(s: State, t: nat) returns (tr: seq<State>)
    ensures Takes(tr, t, s, s)
  {
    tr := [s];
  }

  lemma Go(tr: seq<State>, t: nat, s: State, s1: State) returns (tr': seq<State>, s2: State)
    requires Takes(tr, t, s, s1) && t < |s1.threads| && CanStep(s1, t) && !s1.threads[t].pc.Notify?
    ensures s2 == Step(s1, t, 0) && Takes(tr', t, s, s2)
  {
    s2 := Step(s1, t, 0);
    tr' := tr + [s2];
    assert StepTo(s1, t, 0, s2);
    hide StepTo, Step, CanStep;
    forall i | 0 <= i < |tr'| - 1
      ensures Goes(tr'[i], t, tr'[i + 1])
    {
      assert i < |tr| - 1 ==> Goes(tr[i], t, tr[i + 1]);
      assert Goes(s1, t, s2);
    }
  }

  // The step that notifies: somebody may wake, or a token is posted.
  lemma Notifies(tr: seq<State>, t: nat, s: State, s1: State) returns (tr': seq<State>, s2: State)
    requires Takes(tr, t, s, s1) && t < |s1.threads| && s1.threads[t].pc.Notify?
    ensures Takes(tr', t, s, s2) && |s2.threads| == |s1.threads| && s2.threads[t] == s1.threads[t].(pc := Unlock)
    ensures s2 == s1.(threads := s2.threads, empty := s2.empty, full := s2.full)
    ensures
      var added := if s1.kind.Semaphore? then 1 else 0;
      if s1.threads[t].role.Writer? then s2.full == s1.full + added && s2.empty == s1.empty
      else s2.empty == s1.empty + added && s2.full == s1.full
  {
    var w: nat := 0;
    if u :| 0 <= u < |s1.threads| && Wakes(s1.threads[u], s1.threads[t].role) {
      w := u;
    }
    s2 := Step(s1, t, w);
    tr' := tr + [s2];
    assert StepTo(s1, t, w, s2);
    hide StepTo, Step, CanStep;
    forall i | 0 <= i < |tr'| - 1
      ensures Goes(tr'[i], t, tr'[i + 1])
    {
      assert i < |tr| - 1 ==> Goes(tr[i], t, tr[i + 1]);
      assert Goes(s1, t, s2);
    }
  }

  // Nobody is in a critical section, and thread t is about to call.
  ghost predicate Calls(s: State, t: nat)
  {
    Inv(s) && s.owner.None? && t < |s.threads| && s.threads[t].pc.Idle?
  }

  // The call will not have to wait.
  predicate Served(s: State, t: nat)
    requires t < |s.threads|
  {
    if s.kind.Semaphore? then (if s.threads[t].role.Writer? then s.empty else s.full) > 0
    else if s.threads[t].role.Writer? then |s.list| < s.max
    else |s.list| > 0
  }

  // Up to the statement that links.
  lemma ComesToLink(s: State, t: nat) returns (tr: seq<State>, s': State)
    requires Calls(s, t) && Served(s, t)
    ensures Takes(tr, t, s, s') && |s'.threads| == |s.threads| && s'.threads[t] == s.threads[t].(pc := Link)
    ensures s' == s.(threads := s'.threads, owner := Some(t), empty := s'.empty, full := s'.full, broken := s'.broken)
    ensures
      var taken := if s.kind.Semaphore? then 1 else 0;
      if s.threads[t].role.Writer? then s'.empty == s.empty - taken && s'.full == s.full
      else s'.full == s.full - taken && s'.empty == s.empty
  {
    assert s.count == |s.list|;
    hide Inv, Takes;
    tr := Stay(s, t);
    s' := s;
    tr, s' := Go(tr, t, s, s');
    if s.kind.Semaphore? {
      tr, s' := Go(tr, t, s, s');
      tr, s' := Go(tr, t, s, s');
    } else {
      tr, s' := Go(tr, t, s, s');
      if s.kind.Condvar? {
        tr, s' := Go(tr, t, s, s');
      }
      tr, s' := Go(tr, t, s, s');
    }
  }

  // From the statement that counts to the return.
  lemma Returns(tr: seq<State>, t: nat, s: State, s1: State) returns (tr': seq<State>, s': State)
    requires Takes(tr, t, s, s1) && t < |s1.threads| && s1.threads[t].pc.Count?
    ensures Takes(tr', t, s, s') && |s'.threads| == |s1.threads| && s'.owner.None?
    ensures
      var th := s1.threads[t];
      s'.threads[t] == th.(pc := Idle, n := if th.role.Writer? then th.n + 1 else th.val + 1)
    ensures s'.list == s1.list && s'.added == s1.added && s'.taken == s1.taken
    ensures s'.count == s1.count + if s1.threads[t].role.Writer? then 1 else -1
    ensures
      var posted := if s1.kind.Semaphore? then 1 else 0;
      if s1.threads[t].role.Writer? then s'.full == s1.full + posted && s'.empty == s1.empty
      else s'.empty == s1.empty + posted && s'.full == s1.full
  {
    hide Takes;
    tr', s' := Go(tr, t, s, s1);
    if !s1.kind.Locked? {
      tr', s' := Notifies(tr', t, s, s');
    }
    tr', s' := Go(tr', t, s, s');
  }

  /** queue_add on a queue with room, undisturbed: the list gains the value at its end, and the call succeeds, so that
      the writer goes on to the next value. */
  lemma AddsAlone(s: State, t: nat) returns (tr: seq<State>, s': State)
    requires Calls(s, t) && Served(s, t) && s.threads[t].role.Writer?
    ensures Takes(tr, t, s, s') && |s'.threads| == |s.threads| && s'.owner.None?
    ensures s'.threads[t] == s.threads[t].(n := s.threads[t].n + 1)
    ensures s'.list == s.list + [s.threads[t].n] && s'.added == s.added + [s.threads[t].n] && s'.taken == s.taken
    ensures s'.count == s.count + 1
    ensures s.kind.Semaphore? ==> s'.empty == s.empty - 1 && s'.full == s.full + 1
  {
    hide Inv, Takes, Served;
    tr, s' := ComesToLink(s, t);
    tr, s' := Go(tr, t, s, s');
    tr, s' := Returns(tr, t, s, s');
  }

  /** queue_get on a queue with items, undisturbed: the first value leaves the list and is handed to the reader. */
  lemma GetsAlone(s: State, t: nat) returns (tr: seq<State>, s': State)
    requires Calls(s, t) && Served(s, t) && s.threads[t].role.Reader? && s.list != []
    ensures Takes(tr, t, s, s') && |s'.threads| == |s.threads| && s'.owner.None?
    ensures s'.threads[t] == s.threads[t].(val := s.list[0], n := s.list[0] + 1)
    ensures s.list == [s.list[0]] + s'.list && s'.taken == s.taken + [s.list[0]] && s'.added == s.added
    ensures s'.count == s.count - 1
    ensures s.kind.Semaphore? ==> s'.full == s.full - 1 && s'.empty == s.empty + 1
  {
    hide Inv, Takes, Served;
    tr, s' := ComesToLink(s, t);
    tr, s' := Go(tr, t, s, s');
    tr, s' := Returns(tr, t, s, s');
  }

  /** A call that finds the queue full, or empty, or no token: under the mutex or the spinlock it returns 0, with the
      condition variables it sleeps without the mutex, with the semaphores it waits; the queue is as it was. */
  lemma WaitsAlone(s: State, t: nat) returns (tr: seq<State>, s': State)
    requires Calls(s, t) && !Served(s, t)
    ensures Takes(tr, t, s, s') && |s'.threads| == |s.threads| && s'.owner.None?
    ensures
      var pc := if s.kind.Locked? then Idle else if s.kind.Condvar? then Asleep else SemWait;
      s'.threads[t] == s.threads[t].(pc := pc)
    ensures s'.list == s.list && s'.added == s.added && s'.taken == s.taken && s'.count == s.count
    ensures s.kind.Semaphore? ==> !CanStep(s', t)
  {
    assert s.count == |s.list| <= s.max;
    hide Inv, Takes;
    tr := Stay(s, t);
    s' := s;
    tr, s' := Go(tr, t, s, s');
    if !s.kind.Semaphore? {
      tr, s' := Go(tr, t, s, s');
      tr, s' := Go(tr, t, s, s');
      if s.kind.Locked? {
        tr, s' := Go(tr, t, s, s');
      }
    }
  }
}
