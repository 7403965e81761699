/**
 What one pass of a thread does when no other thread is in a pass: which nodes a swapper exchanges, and what a comparer
 sees and counts. The results are stated of the chain of pointers, before and after.
 */
module SwapListPasses {
  import opened SwapList
  import opened SwapListProperties

  // ---------------------------------------------------------------- what a pass should do

  // The two nodes after the one at place p exchanged.
  function Exchanged(o: seq<Node>, p: nat): (r: seq<Node>)
    requires p + 2 < |o|
    ensures |r| == |o|
  {
    o[..p + 1] + [o[p + 2], o[p + 1]] + o[p + 3..]
  }

  function Rest(coins: seq<bool>): seq<bool> { if coins == [] then [] else coins[1..] }

  /** A pass of a swapper from place p on: at each node that has a next one a coin is tossed. If it says so the two
      nodes after it are exchanged, unless there is only one, which ends the pass; either way it moves one place on.
      Coins that are missing say no. */
  function SwapPass(o: seq<Node>, p: nat, coins: seq<bool>): seq<Node>
    decreases |o| - p
  {
    if p + 1 >= |o| then o
    else if coins == [] || !coins[0] then SwapPass(o, p + 1, Rest(coins))
    else if p + 2 < |o| then SwapPass(Exchanged(o, p), p + 1, Rest(coins))
    else o
  }

  // From place i to the next the length rises for an asc thread, falls for a desc one, stays for an eq one.
  predicate CountsAt(c: Order, v: seq<Node>, i: int)
  {
    && 0 <= i < |v| - 1
    && match c
       case ASC => v[i].len < v[i + 1].len
       case DESC => v[i].len > v[i + 1].len
       case EQ => v[i].len == v[i + 1].len
  }

  function Counted(c: Order, v: seq<Node>): set<int> { set i | 0 <= i < |v| && CountsAt(c, v, i) }

  // ---------------------------------------------------------------- counting

  lemma {:induction false} HitsCounted(c: Order, v: seq<Node>)
    ensures Hits(c, v) == |Counted(c, v)|
  {
    if |v| < 2 {
      assert Counted(c, v) == {};
    } else {
      HitsCounted(c, v[..|v| - 1]);
      CountedGrows(c, v);
    }
  }

  lemma CountedGrows(c: Order, v: seq<Node>)
    requires |v| >= 2
    ensures
      var w, n := v[..|v| - 1], |v| - 2;
      && Counted(c, v) == Counted(c, w) + (if CountsAt(c, v, n) then {n} else {}) && n !in Counted(c, w)
      && (CountsAt(c, v, n) <==> Matches(c, v[n].len, v[n + 1].len))
  {
    var w, n := v[..|v| - 1], |v| - 2;
    forall i | 0 <= i < |v|
      ensures CountsAt(c, v, i) <==> CountsAt(c, w, i) || (i == n && CountsAt(c, v, n))
    {
    }
  }

  /** A complete compare pass, whatever was swapped meanwhile, has counted exactly the places of its visit from which
      the length rises, falls or stays, as the thread's kind asks. */
  lemma PassCounts(tr: seq<State>, k: nat, t: nat)
    requires Run(tr) && k < |tr| && t < |tr[k].threads|
    requires tr[k].threads[t].kind.Comparer? && tr[k].threads[t].pc.Final?
    ensures var th := tr[k].threads[t]; th.count == |Counted(th.kind.order, th.visited)|
  {
    hide Run;
    CompletePass(tr, k, t);
    HitsCounted(tr[k].threads[t].kind.order, tr[k].threads[t].visited);
  }

  // ---------------------------------------------------------------- a swapper

  // What the order will be at the end of the pass under way, if only thread th goes on.
  function Pending(o: seq<Node>, th: Thread, coins: seq<bool>): seq<Node>
  {
    match th.pc
    case LockFirst => SwapPass(o, 0, coins)
    case Test => SwapPass(o, th.pos, coins)
    case Coin => SwapPass(o, th.pos, coins)
    case SwapLock => if th.pos + 2 < |o| then SwapPass(Exchanged(o, th.pos), th.pos + 1, coins) else o
    case ReadNext => if th.pos + 2 < |o| then SwapPass(Exchanged(o, th.pos), th.pos + 1, coins) else o
    case LockNext => if th.pos + 2 < |o| then SwapPass(Exchanged(o, th.pos), th.pos + 1, coins) else o
    case Rewire1 => if th.pos + 2 < |o| then SwapPass(Exchanged(o, th.pos), th.pos + 1, coins) else o
    case Bail => o
    case Final => o
    case Top => o
    case _ => SwapPass(o, th.pos + 1, coins)
  }

  // The coins left after a step.
  function Tossed(pc: Pc, coins: seq<bool>): seq<bool> { if pc.Coin? then Rest(coins) else coins }

  function Toss(coins: seq<bool>): bool { coins != [] && coins[0] }

  // The thread after its step; v is what it reads.
  function Went(first: Node, stop: bool, th: Thread, v: Node?, coin: bool): Thread
    requires th.pc.Compare? ==> th.kind.Comparer? && th.prev != null && th.cur != null
  {
    if IsLockPc(th.pc) then AfterLock(first, th)
    else if IsUnlockPc(th.pc) then AfterUnlock(th)
    else if th.pc.Rewire1? then th.(pc := Unlock1)
    else if th.pc.Rewire2? then th.(pc := Unlock2)
    else if th.pc.Rewire3? then th.(pc := Test, prev := th.nxt, pos := th.pos + 1)
    else Advance(th, stop, v, coin)
  }

  lemma StepWent(s: State, t: nat, coin: bool)
    requires t < |s.threads| && Safe(s, t)
    ensures
      var th := s.threads[t];
      Step(s, t, coin).threads == s.threads[t := Went(s.first, s.stop, th, ReadValue(s, th), coin)]
  {
    hide AfterLock, AfterUnlock, Locked, Unlocked, Swapped, Advance;
  }

  lemma PendingLock(o: seq<Node>, first: Node, th: Thread, coins: seq<bool>)
    requires IsLockPc(th.pc) && th.kind.Swapper? && Local(o, th)
    ensures Pending(o, AfterLock(first, th), coins) == Pending(o, th, coins)
  {
  }

  lemma PendingUnlock(o: seq<Node>, th: Thread, coins: seq<bool>)
    requires IsUnlockPc(th.pc) && th.kind.Swapper? && Local(o, th)
    ensures Pending(o, AfterUnlock(th), coins) == Pending(o, th, coins)
  {
  }

  lemma PendingRead(o: seq<Node>, th: Thread, v: Node?, coins: seq<bool>)
    requires th.kind.Swapper? && Local(o, th) && (th.pc.Test? || th.pc.Coin? || th.pc.ReadNext?)
    requires v == At(o, th.pos + if th.pc.ReadNext? then 2 else 1)
    ensures Pending(o, Advance(th, false, v, Toss(coins)), Tossed(th.pc, coins)) == Pending(o, th, coins)
  {
  }

  lemma PendingRewire(o: seq<Node>, th: Thread, coins: seq<bool>)
    requires Local(o, th) && th.kind.Swapper?
    ensures th.pc.Rewire1? ==> Pending(Swapped(o, th.pos + 1), th.(pc := Unlock1), coins) == Pending(o, th, coins)
    ensures th.pc.Rewire2? ==> Pending(o, th.(pc := Unlock2), coins) == Pending(o, th, coins)
    ensures th.pc.Rewire3? ==>
      Pending(o, th.(pc := Test, prev := th.nxt, pos := th.pos + 1), coins) == Pending(o, th, coins)
  {
    if th.pc.Rewire1? {
      assert Swapped(o, th.pos + 1) == Exchanged(o, th.pos);
    }
  }

  lemma SwapperStep(s: State, t: nat, coins: seq<bool>)
    requires Inv(s) && t < |s.threads| && Safe(s, t) && s.threads[t].kind.Swapper?
    requires InPass(s.threads[t].pc) || s.threads[t].pc.LockFirst?
    ensures
      var s', th := Step(s, t, Toss(coins)), s.threads[t];
      && |s'.threads| == |s.threads|
      && Pending(s'.order, s'.threads[t], Tossed(th.pc, coins)) == Pending(s.order, th, coins)
  {
    hide Inv, Step, Pending, Local, Swapped, AfterLock, AfterUnlock, Advance;
    var th := s.threads[t];
    LocalOf(s, t);
    StepWent(s, t, Toss(coins));
    StepFrame(s, t, Toss(coins));
    if IsLockPc(th.pc) {
      PendingLock(s.order, s.first, th, coins);
    } else if IsUnlockPc(th.pc) {
      PendingUnlock(s.order, th, coins);
    } else if th.pc.Rewire1? || th.pc.Rewire2? || th.pc.Rewire3? {
      PendingRewire(s.order, th, coins);
    } else {
      SwapperPlain(s, t);
      ReadsOrder(s, t);
      PendingRead(s.order, th, ReadValue(s, th), coins);
      StopIgnored(th, s.stop, ReadValue(s, th), Toss(coins));
    }
  }

  lemma LocalOf(s: State, t: nat)
    requires Inv(s) && t < |s.threads|
    ensures Local(s.order, s.threads[t])
    ensures s.threads[t].pc.Rewire1? ==> s.threads[t].pos + 2 < |s.order|
  {
    assert ThreadOk(s, t);
  }

  lemma SwapperPlain(s: State, t: nat)
    requires Inv(s) && t < |s.threads| && s.threads[t].kind.Swapper?
    requires IsPlainPc(s.threads[t].pc) && InPass(s.threads[t].pc)
    ensures s.threads[t].pc.Test? || s.threads[t].pc.Coin? || s.threads[t].pc.ReadNext?
  {
    assert ThreadOk(s, t);
  }

  lemma StopIgnored(th: Thread, stop: bool, v: Node?, coin: bool)
    requires !th.pc.Top? && !th.pc.Compare?
    ensures Advance(th, stop, v, coin) == Advance(th, false, v, coin)
  {
  }

  // ---------------------------------------------------------------- a comparer

  // What a comparer that is alone has seen so far.
  predicate SeenAll(o: seq<Node>, th: Thread)
  {
    InPass(th.pc) ==> th.pos < |o| && th.visited == o[..th.pos + 1]
  }

  lemma SeenPlain(o: seq<Node>, first: Node, th: Thread, stop: bool, v: Node?, coin: bool)
    requires Local(o, th) && |o| > 0 && o[0] == first && SeenAll(o, th) && !th.pc.Compare?
    ensures IsLockPc(th.pc) ==> SeenAll(o, AfterLock(first, th))
    ensures th.pc.ReadUnlock? || th.pc.Final? ==> SeenAll(o, AfterUnlock(th))
    ensures IsPlainPc(th.pc) ==> SeenAll(o, Advance(th, stop, v, coin))
  {
  }

  lemma SeenCompared(o: seq<Node>, th: Thread)
    requires Local(o, th) && SeenAll(o, th) && th.pc.Compare? && th.prev != null && th.cur != null
    ensures SeenAll(o, Compared(th))
  {
    assert o[..th.pos + 2] == o[..th.pos + 1] + [o[th.pos + 1]];
  }

  lemma ComparerStep(s: State, t: nat, coin: bool)
    requires Inv(s) && t < |s.threads| && Safe(s, t) && s.threads[t].kind.Comparer? && SeenAll(s.order, s.threads[t])
    ensures
      var s' := Step(s, t, coin);
      |s'.threads| == |s.threads| && s'.order == s.order && SeenAll(s.order, s'.threads[t])
  {
    var th := s.threads[t];
    assert Local(s.order, th) && |s.order| > 0 && s.order[0] == s.first by {
      assert ThreadOk(s, t);
    }
    ComparerPc(s.order, th);
    hide Inv, Local, SeenAll, AfterLock, AfterUnlock, Locked, Unlocked, Swapped, Compared;
    if th.pc.Compare? {
      SeenCompared(s.order, th);
    } else {
      hide Advance;
      SeenPlain(s.order, s.first, th, s.stop, ReadValue(s, th), coin);
    }
  }

  lemma ComparerPc(o: seq<Node>, th: Thread)
    requires Local(o, th) && th.kind.Comparer?
    ensures IsUnlockPc(th.pc) ==> th.pc.ReadUnlock? || th.pc.Final?
    ensures IsLockPc(th.pc) || IsUnlockPc(th.pc) || IsPlainPc(th.pc)
  {
  }

  // ---------------------------------------------------------------- alone

  // No other thread is in a pass, and so none holds a node.
  ghost predicate Alone(s: State, t: nat)
  {
    t < |s.threads| && forall u :: 0 <= u < |s.threads| && u != t ==> !InPass(s.threads[u].pc)
  }

  lemma AloneEnabled(s: State, t: nat)
    requires Inv(s) && Alone(s, t) && !s.threads[t].pc.Done?
    ensures Safe(s, t) && Enabled(s, t)
  {
    InvSafe(s, t);
    if !Enabled(s, t) {
      var u := BlockedWaits(s, t);
      WaitsEarlier(s, t, u);
    }
  }

  // Before the last step of a pass the chain is the order.
  function Chain(s: State): seq<Node> { Walk(s.next, s.first, |s.order|) }

  lemma ChainIsOrder(s: State)
    requires Inv(s) && forall t :: 0 <= t < |s.threads| ==> !InFlight(s.threads[t].pc)
    ensures Chain(s) == s.order
  {
    forall i | 0 <= i < |s.order|
      ensures s.mark[s.order[i]] == Plain
    {
      assert MarkOk(s, i);
    }
    PlainThrough(s, 0);
    assert MarkOk(s, 0);
    WalkThrough(s, 0, |s.order|);
    assert s.order[0..] == s.order;
  }

  lemma RunGoesOn(tr: seq<State>, t: nat, coin: bool)
    requires Run(tr) && t < |tr[|tr| - 1].threads| && Safe(tr[|tr| - 1], t) && Enabled(tr[|tr| - 1], t)
    ensures Run(tr + [Step(tr[|tr| - 1], t, coin)])
  {
    var s' := Step(tr[|tr| - 1], t, coin);
    var tr' := tr + [s'];
    assert StepTo(tr[|tr| - 1], t, coin, s');
    hide StepTo, Step, Safe, Enabled;
    assert Next(tr[|tr| - 1], s');
    forall i | 0 <= i < |tr'| - 1
      ensures Next(tr'[i], tr'[i + 1])
    {
      assert i < |tr| - 1 ==> Next(tr[i], tr[i + 1]);
    }
  }

  // Nothing but thread t differs, and it is still in its pass or at its end.
  ghost predicate Onward(s: State, t: nat, s': State)
  {
    && Alone(s', t) && s'.stop == s.stop && s'.first == s.first && |s'.threads| == |s.threads|
    && |s'.order| == |s.order| && s'.threads[t].kind == s.threads[t].kind
  }

  lemma StepOnward(s: State, t: nat, coin: bool)
    requires Inv(s) && Alone(s, t) && Safe(s, t)
    ensures Onward(s, t, Step(s, t, coin))
  {
    StepFrame(s, t, coin);
    StopStays(s, t, coin);
    StepSame(s, t, coin);
    KindStays(s, t, coin);
    SameSize(Step(s, t, coin).order, s.order);
    hide Inv, Step, InPass;
  }

  lemma WentStays(first: Node, stop: bool, th: Thread, v: Node?, coin: bool)
    requires th.pc.Compare? ==> th.kind.Comparer? && th.prev != null && th.cur != null
    ensures Went(first, stop, th, v, coin).kind == th.kind
    ensures (InPass(th.pc) || th.pc.LockFirst?) && !th.pc.Final? ==> InPass(Went(first, stop, th, v, coin).pc)
  {
  }

  lemma KindStays(s: State, t: nat, coin: bool)
    requires t < |s.threads| && Safe(s, t)
    ensures |Step(s, t, coin).threads| == |s.threads| && Step(s, t, coin).threads[t].kind == s.threads[t].kind
  {
    StepWent(s, t, coin);
    hide Step, Went;
    WentStays(s.first, s.stop, s.threads[t], ReadValue(s, s.threads[t]), coin);
  }

  // Thread t is alone and has a pass to finish.
  ghost predicate Ready(s: State, t: nat)
  {
    && Inv(s) && Alone(s, t) && (InPass(s.threads[t].pc) || s.threads[t].pc.LockFirst?)
    && (s.threads[t].kind.Comparer? ==> SeenAll(s.order, s.threads[t]))
  }

  // The order is as expected, and the comparer has seen it.
  ghost predicate Result(s: State, t: nat, coins: seq<bool>, s': State)
  {
    && t < |s.threads| && Onward(s, t, s')
    && if s.threads[t].kind.Swapper? then Pending(s'.order, s'.threads[t], []) == Pending(s.order, s.threads[t], coins)
       else s'.order == s.order
  }

  // One more step, and what it means for the result.
  lemma OneStep(s: State, t: nat, coins: seq<bool>) returns (s': State)
    requires Ready(s, t) && !s.threads[t].pc.Final?
    ensures Safe(s, t) && Enabled(s, t) && s' == Step(s, t, Toss(coins)) && Ready(s', t)
    ensures Rank(|s'.order|, s'.threads[t]) < Rank(|s.order|, s.threads[t])
    ensures forall f :: Result(s', t, Tossed(s.threads[t].pc, coins), f) ==> Result(s, t, coins, f)
  {
    hide Inv, Rank, SeenAll, Pending, Safe, Enabled, Step;
    AloneEnabled(s, t);
    var coin := Toss(coins);
    s' := Step(s, t, coin);
    StepInv(s, t, coin);
    StepOnward(s, t, coin);
    StaysInPass(s, t, coin);
    RankFalls(s, t, coin);
    if s.threads[t].kind.Swapper? {
      SwapperStep(s, t, coins);
    } else {
      ComparerStep(s, t, coin);
    }
  }

  function Last(tr: seq<State>): State
    requires tr != []
  {
    tr[|tr| - 1]
  }

  // A run to the end of the pass of thread t; coins answers __needs_swap.
  ghost predicate EndsPass(tr: seq<State>, t: nat, coins: seq<bool>, tr': seq<State>)
  {
    && tr != [] && tr' != [] && Run(tr') && tr <= tr' && Ready(Last(tr'), t) && Last(tr').threads[t].pc.Final?
    && Result(Last(tr), t, coins, Last(tr'))
  }

  // A thread that is alone goes on to the end of its pass.
  lemma {:induction false} GoesToEnd(tr: seq<State>, t: nat, coins: seq<bool>) returns (tr': seq<State>)
    requires Run(tr) && Ready(Last(tr), t)
    ensures EndsPass(tr, t, coins, tr')
    decreases Rank(|Last(tr).order|, Last(tr).threads[t])
  {
    var s := Last(tr);
    hide Run, Rank, Ready, Result, Safe, Enabled, Step, EndsPass;
    AloneThread(s, t);
    if s.threads[t].pc.Final? {
      tr' := tr;
      EndsHere(tr, t, coins);
    } else {
      var longer, left := StepOn(tr, t, coins);
      tr' := GoesToEnd(longer, t, left);
      EndsLater(tr, t, coins, longer, left, tr');
    }
  }

  lemma StepOn(tr: seq<State>, t: nat, coins: seq<bool>) returns (longer: seq<State>, left: seq<bool>)
    requires Run(tr) && Ready(Last(tr), t) && !Last(tr).threads[t].pc.Final?
    ensures Run(longer) && tr <= longer && Ready(Last(longer), t)
    ensures Rank(|Last(longer).order|, Last(longer).threads[t]) < Rank(|Last(tr).order|, Last(tr).threads[t])
    ensures forall f :: Result(Last(longer), t, left, f) ==> Result(Last(tr), t, coins, f)
  {
    hide Rank, Ready, Result, Safe, Enabled, Step;
    var s := Last(tr);
    AloneThread(s, t);
    var s' := OneStep(s, t, coins);
    RunGoesOn(tr, t, Toss(coins));
    longer, left := tr + [s'], Tossed(s.threads[t].pc, coins);
    assert Last(longer) == s';
  }

  lemma EndsHere(tr: seq<State>, t: nat, coins: seq<bool>)
    requires Run(tr) && Ready(Last(tr), t) && Last(tr).threads[t].pc.Final?
    ensures EndsPass(tr, t, coins, tr)
  {
    hide Ready, Result;
    EndResult(Last(tr), t, coins);
  }

  lemma EndsLater(tr: seq<State>, t: nat, coins: seq<bool>, longer: seq<State>, left: seq<bool>, tr': seq<State>)
    requires tr != [] && tr <= longer && EndsPass(longer, t, left, tr')
    requires forall f :: Result(Last(longer), t, left, f) ==> Result(Last(tr), t, coins, f)
    ensures EndsPass(tr, t, coins, tr')
  {
    hide Ready, Result;
  }

  lemma EndResult(s: State, t: nat, coins: seq<bool>)
    requires Ready(s, t) && s.threads[t].pc.Final?
    ensures Result(s, t, coins, s)
  {
    hide Inv;
  }

  lemma AloneThread(s: State, t: nat)
    requires Ready(s, t)
    ensures t < |s.threads|
  {
  }

  lemma RankFalls(s: State, t: nat, coin: bool)
    requires Inv(s) && t < |s.threads| && Safe(s, t) && Enabled(s, t) && !s.threads[t].pc.Top?
    ensures |Step(s, t, coin).threads| == |s.threads|
    ensures Rank(|s.order|, Step(s, t, coin).threads[t]) < Rank(|s.order|, s.threads[t])
  {
    assert StepTo(s, t, coin, Step(s, t, coin));
    StepWent(s, t, coin);
    hide Inv, Step, Safe, Enabled, Rank, Went;
    OwnStepAdvances(s, t, coin, Step(s, t, coin));
  }

  lemma StaysInPass(s: State, t: nat, coin: bool)
    requires t < |s.threads| && Safe(s, t)
    requires (InPass(s.threads[t].pc) || s.threads[t].pc.LockFirst?) && !s.threads[t].pc.Final?
    ensures |Step(s, t, coin).threads| == |s.threads| && InPass(Step(s, t, coin).threads[t].pc)
  {
    StepWent(s, t, coin);
    hide Step, Went;
    WentStays(s.first, s.stop, s.threads[t], ReadValue(s, s.threads[t]), coin);
  }

  // ---------------------------------------------------------------- the results

  // Thread t is between two passes, and nobody else is in one.
  ghost predicate Between(tr: seq<State>, t: nat)
  {
    Run(tr) && Alone(Last(tr), t) && Last(tr).threads[t].pc.Top? && !Last(tr).stop
  }

  lemma BetweenIs(tr: seq<State>, t: nat)
    requires Between(tr, t)
    ensures Run(tr) && tr != [] && Inv(Last(tr)) && Alone(Last(tr), t) && t < |Last(tr).threads|
    ensures Last(tr).threads[t].pc.Top? && !Last(tr).stop
  {
    hide Inv;
    RunInv(tr, |tr| - 1);
  }

  lemma Beginning(tr: seq<State>, t: nat) returns (first: seq<State>)
    requires Between(tr, t)
    ensures Run(first) && tr <= first && Ready(Last(first), t)
    ensures var s := Last(tr); Last(first) == s.(threads := s.threads[t := s.threads[t].(pc := LockFirst)])
  {
    BetweenIs(tr, t);
    hide Between, Inv, Run, Ready, Enabled, Safe, Step, Alone;
    var s := Last(tr);
    BeginStep(s, t);
    RunGoesOn(tr, t, false);
    first := tr + [Step(s, t, false)];
    assert Last(first) == Step(s, t, false);
  }

  lemma BeginStep(s: State, t: nat)
    requires Inv(s) && Alone(s, t) && s.threads[t].pc.Top? && !s.stop
    ensures Safe(s, t) && Enabled(s, t) && Ready(Step(s, t, false), t)
    ensures Step(s, t, false) == s.(threads := s.threads[t := s.threads[t].(pc := LockFirst)])
  {
    AloneEnabled(s, t);
    StepInv(s, t, false);
    hide Inv;
  }

  lemma Ending(tr: seq<State>, t: nat) returns (tr': seq<State>)
    requires Run(tr) && Ready(Last(tr), t) && Last(tr).threads[t].pc.Final? && !Last(tr).stop
    ensures Between(tr', t) && tr <= tr'
    ensures
      var s, s' := Last(tr), Last(tr');
      && s'.threads == s.threads[t := s.threads[t].(pc := Top)] && s'.order == s.order && s'.first == s.first
      && s'.next == s.next
  {
    var s := Last(tr);
    AloneEnabled(s, t);
    hide Inv, Run, Locked, Unlocked, SeenAll;
    var s' := Step(s, t, false);
    RunGoesOn(tr, t, false);
    tr' := tr + [s'];
    assert Last(tr') == s';
  }

  // What a pass comes to.
  lemma PassResult(s: State, t: nat, coins: seq<bool>, first: State, mid: State)
    requires t < |s.threads| && first == s.(threads := s.threads[t := s.threads[t].(pc := LockFirst)])
    requires Result(first, t, coins, mid) && Ready(mid, t) && mid.threads[t].pc.Final?
    ensures mid.stop == s.stop && mid.first == s.first && mid.threads[t].kind == s.threads[t].kind
    ensures |mid.order| == |s.order|
    ensures mid.threads[t].kind.Swapper? ==> mid.order == SwapPass(s.order, 0, coins)
    ensures mid.threads[t].kind.Comparer? ==> mid.order == s.order && SeenAll(s.order, mid.threads[t])
  {
    hide Inv, SwapPass, SeenAll;
  }

  lemma OnePass(tr: seq<State>, t: nat, coins: seq<bool>) returns (ended: seq<State>, tr': seq<State>)
    requires Between(tr, t)
    ensures Run(ended) && tr <= ended <= tr' && Between(tr', t) && Ready(Last(ended), t)
    ensures
      var s, mid, s' := Last(tr), Last(ended), Last(tr');
      && t < |s.threads| && mid.threads[t].pc.Final? && mid.threads[t].kind == s.threads[t].kind
      && s'.threads == mid.threads[t := mid.threads[t].(pc := Top)] && s'.order == mid.order && s'.first == s.first
      && |s'.order| == |s.order|
      && (s.threads[t].kind.Swapper? ==> s'.order == SwapPass(s.order, 0, coins))
      && (s.threads[t].kind.Comparer? ==> s'.order == s.order && SeenAll(s.order, mid.threads[t]))
  {
    assert tr != [] && t < |Last(tr).threads|;
    var first := Beginning(tr, t);
    hide Between, Run, Ready, Result, SwapPass, SeenAll;
    ended := GoesToEnd(first, t, coins);
    PassResult(Last(tr), t, coins, Last(first), Last(ended));
    assert !Last(tr).stop by {
      BetweenRuns(tr, t);
    }
    tr' := Ending(ended, t);
  }

  lemma BetweenRuns(tr: seq<State>, t: nat)
    requires Between(tr, t)
    ensures Run(tr) && !Last(tr).stop
  {
  }

  // Nobody swaps between two passes.
  lemma ChainBetween(tr: seq<State>, t: nat)
    requires Between(tr, t)
    ensures Inv(Last(tr)) && Chain(Last(tr)) == Last(tr).order
  {
    RunInv(tr, |tr| - 1);
    hide Inv, Run, Chain;
    NoneInFlight(Last(tr), t);
    ChainIsOrder(Last(tr));
  }

  lemma NoneInFlight(s: State, t: nat)
    requires Alone(s, t) && s.threads[t].pc.Top?
    ensures forall u :: 0 <= u < |s.threads| ==> !InFlight(s.threads[u].pc)
  {
  }

  /** A swapper with nobody else in a pass: for every list and all coins there is a run through one pass at whose end
      the chain of pointers is what SwapPass makes of the chain at its beginning. */
  lemma SwapsAlone(tr: seq<State>, t: nat, coins: seq<bool>) returns (tr': seq<State>)
    requires Between(tr, t) && Last(tr).threads[t].kind.Swapper?
    ensures Between(tr', t) && tr <= tr'
    ensures Chain(Last(tr')) == SwapPass(Chain(Last(tr)), 0, coins)
  {
    ChainBetween(tr, t);
    hide Between, Chain, SwapPass, Run, Inv;
    var ended;
    ended, tr' := OnePass(tr, t, coins);
    ChainBetween(tr', t);
  }

  /** A comparer with nobody else in a pass: there is a run through one pass in which it has visited the chain from
      its beginning to its end and counted exactly its places that compare. The chain stays as it is. */
  lemma ComparesAlone(tr: seq<State>, t: nat) returns (tr': seq<State>)
    requires Between(tr, t) && Last(tr).threads[t].kind.Comparer?
    ensures Between(tr', t) && tr <= tr' && Chain(Last(tr')) == Chain(Last(tr))
    ensures
      var th := Last(tr').threads[t];
      && th.kind == Last(tr).threads[t].kind && th.visited == Chain(Last(tr))
      && th.count == |Counted(th.kind.order, Chain(Last(tr)))|
  {
    ChainBetween(tr, t);
    hide Between, Chain, Run, Inv;
    var ended;
    ended, tr' := OnePass(tr, t, []);
    ChainBetween(tr', t);
    FinalSeen(Last(ended), t, Last(tr).order);
  }

  lemma FinalSeen(s: State, t: nat, o: seq<Node>)
    requires Ready(s, t) && s.threads[t].pc.Final? && s.threads[t].kind.Comparer? && s.order == o
    ensures s.threads[t].visited == o && s.threads[t].count == |Counted(s.threads[t].kind.order, o)|
  {
    var th := s.threads[t];
    assert ThreadOk(s, t) && PassOk(s, t);
    assert o[..th.pos + 1] == o;
    HitsCounted(th.kind.order, th.visited);
  }
}
