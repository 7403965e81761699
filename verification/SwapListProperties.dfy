/**
 What every run of the hand-over-hand list keeps: the chain stays finite and loses no node, a
 comparer visits each node once, nobody deadlocks, and a pass ends after a bounded number of steps.
 */
module SwapListProperties {
  import opened Counting
  import opened SwapList

  // ---------------------------------------------------------------- the chain

  // The nodes reached from x by following at most fuel pointers.
  function Walk(next: map<Node, Node?>, x: Node?, fuel: nat): seq<Node>
  {
    if x == null || x !in next || fuel == 0 then [] else [x] + Walk(next, next[x], fuel - 1)
  }

  // A node that a swap has cut off the chain and not put back yet.
  predicate CutOff(s: State, t: nat, x: Node)
  {
    t < |s.threads| && InFlight(s.threads[t].pc) && s.threads[t].cur == x
  }

  // The part of the logical order, from position i on, that the pointers go through.
  ghost function Through(s: State, i: nat): (r: seq<Node>)
    requires Shape(s)
    ensures i < |s.order| ==> |r| > 0 && r[0] == s.order[i]
    ensures forall x :: x in r ==> x in s.order
    decreases |s.order| - i
  {
    if i >= |s.order| then []
    else [s.order[i]] + Through(s, if s.mark[s.order[i]].Skip? then i + 2 else i + 1)
  }

  predicate OnChain(m: Mark) { m.Plain? || m.Skip? }

  function After(s: State, i: nat): nat
    requires i < |s.order| && s.order[i] in s.mark
  {
    if s.mark[s.order[i]].Skip? then i + 2 else i + 1
  }

  lemma AfterOnChain(s: State, i: nat)
    requires Inv(s) && i < |s.order| && OnChain(s.mark[s.order[i]])
    ensures After(s, i) <= |s.order|
    ensures After(s, i) < |s.order| ==> OnChain(s.mark[s.order[After(s, i)]])
    ensures After(s, i) == i + 2 ==> !OnChain(s.mark[s.order[i + 1]])
  {
    MarkNeighbours(s, i);
    if i + 1 < |s.order| {
      MarkNeighbours(s, i + 1);
    }
    if i + 2 < |s.order| {
      MarkNeighbours(s, i + 2);
    }
  }

  lemma {:induction false} ThroughNodes(s: State, i: nat, x: Node)
    requires Inv(s) && i <= |s.order| && (i < |s.order| ==> OnChain(s.mark[s.order[i]]))
    ensures x in Through(s, i) <==> x in s.order[i..] && OnChain(s.mark[x])
    decreases |s.order| - i
  {
    hide LinkOk, MarkOk, LockOk, PairOk, ThreadOk, PassOk, Distinct;
    if i < |s.order| {
      AfterOnChain(s, i);
      ThroughNodes(s, After(s, i), x);
      assert s.order[i..] == [s.order[i]] + s.order[i + 1..];
      if After(s, i) == i + 2 {
        assert s.order[i + 1..] == [s.order[i + 1]] + s.order[i + 2..];
      }
    }
  }

  lemma {:induction false} ThroughDistinct(s: State, i: nat)
    requires Inv(s) && i <= |s.order| && (i < |s.order| ==> OnChain(s.mark[s.order[i]]))
    ensures Distinct(Through(s, i))
    decreases |s.order| - i
  {
    if i < |s.order| {
      AfterOnChain(s, i);
      ThroughDistinct(s, After(s, i));
      ThroughNodes(s, After(s, i), s.order[i]);
    }
  }

  lemma {:induction false} WalkThrough(s: State, i: nat, fuel: nat)
    requires Inv(s) && i < |s.order| && OnChain(s.mark[s.order[i]]) && fuel >= |s.order| - i
    ensures Walk(s.next, s.order[i], fuel) == Through(s, i)
    ensures var l := Through(s, i)[|Through(s, i)| - 1]; l in s.next && s.next[l] == null
    decreases fuel
  {
    assert LinkOk(s, i);
    AfterOnChain(s, i);
    if After(s, i) < |s.order| {
      WalkThrough(s, After(s, i), fuel - 1);
    }
  }

  // The nodes off the chain are those that some swap has cut off.
  lemma CutOffMarks(s: State, x: Node)
    requires Inv(s) && x in s.order
    ensures !OnChain(s.mark[x]) <==> exists t: nat :: CutOff(s, t, x)
  {
    var i :| 0 <= i < |s.order| && s.order[i] == x;
    assert MarkOk(s, i);
    if !OnChain(s.mark[x]) {
      assert ThreadOk(s, s.mark[x].t) && CutOff(s, s.mark[x].t, x);
    }
    if t: nat :| CutOff(s, t, x) {
      assert ThreadOk(s, t);
    }
  }

  lemma CutOffOnce(s: State, t: nat, u: nat, x: Node)
    requires Inv(s) && CutOff(s, t, x) && CutOff(s, u, x)
    ensures t == u
  {
    assert ThreadOk(s, t) && ThreadOk(s, u);
  }

  // c runs from first to a node whose next is NULL, and meets every node once that no swap has cut off.
  ghost predicate IsChain(s: State, c: seq<Node>)
  {
    && |c| > 0 && c[0] == s.first && Distinct(c)
    && c[|c| - 1] in s.next && s.next[c[|c| - 1]] == null
    && (forall x :: x in s.order ==> (x in c <==> !exists t: nat :: CutOff(s, t, x)))
    && (forall x :: x in c ==> x in s.order)
  }

  lemma ChainOf(s: State)
    requires Inv(s)
    ensures IsChain(s, Walk(s.next, s.first, |s.order|))
  {
    hide LinkOk, LockOk, PairOk, ThreadOk, PassOk;
    assert MarkOk(s, 0);
    WalkThrough(s, 0, |s.order|);
    ThroughDistinct(s, 0);
    assert s.order[0..] == s.order;
    forall x | x in s.order
      ensures x in Through(s, 0) <==> !exists t: nat :: CutOff(s, t, x)
    {
      ThroughNodes(s, 0, x);
      CutOffMarks(s, x);
    }
  }

  lemma SameSize(a: seq<Node>, b: seq<Node>)
    requires multiset(a) == multiset(b)
    ensures |a| == |b| && forall x :: x in a <==> x in b
  {
    assert |multiset(a)| == |a|;
    forall x
      ensures x in a <==> x in b
    {
      assert (x in a <==> x in multiset(a)) && (x in b <==> x in multiset(b));
    }
  }

  /** In every state of every run the pointers from first lead, without meeting a node twice, to a node
      whose next is NULL; every node of the initial list is either on that chain or cut off by exactly
      one swap in progress; and first never changes. */
  lemma ChainIntact(tr: seq<State>, k: nat)
    requires Run(tr) && k < |tr|
    ensures tr[k].first == tr[0].first && multiset(tr[k].order) == multiset(tr[0].order)
    ensures IsChain(tr[k], Walk(tr[k].next, tr[0].first, |tr[0].order|))
    ensures forall t: nat, u: nat, x :: CutOff(tr[k], t, x) && CutOff(tr[k], u, x) ==> t == u
  {
    hide Shape, LinkOk, LockOk, PairOk, ThreadOk, PassOk, MarkOk, IsChain;
    RunInv(tr, k);
    ChainOf(tr[k]);
    SameSize(tr[k].order, tr[0].order);
    forall t: nat, u: nat, x | CutOff(tr[k], t, x) && CutOff(tr[k], u, x)
      ensures t == u
    {
      CutOffOnce(tr[k], t, u, x);
    }
  }

  /** With no swap in progress the chain itself is a permutation of the initial list. */
  lemma ChainPermutes(tr: seq<State>, k: nat)
    requires Run(tr) && k < |tr| && forall t :: 0 <= t < |tr[k].threads| ==> !InFlight(tr[k].threads[t].pc)
    ensures multiset(Walk(tr[k].next, tr[0].first, |tr[0].order|)) == multiset(tr[0].order)
  {
    RunInv(tr, k);
    var s := tr[k];
    SameSize(s.order, tr[0].order);
    forall i | 0 <= i < |s.order|
      ensures s.mark[s.order[i]] == Plain
    {
      assert MarkOk(s, i);
    }
    PlainThrough(s, 0);
    WalkThrough(s, 0, |s.order|);
    assert s.order[0..] == s.order;
  }

  lemma {:induction false} PlainThrough(s: State, i: nat)
    requires Shape(s) && i <= |s.order| && forall j :: 0 <= j < |s.order| ==> s.mark[s.order[j]] == Plain
    ensures Through(s, i) == s.order[i..]
    decreases |s.order| - i
  {
    if i < |s.order| {
      PlainThrough(s, i + 1);
    }
  }

  // ---------------------------------------------------------------- passes

  /** A complete compare pass has had every node of the list as prev exactly once, has made one comparison
      fewer than there are nodes, and has counted the neighbours of its visit that compare. */
  lemma CompletePass(tr: seq<State>, k: nat, t: nat)
    requires Run(tr) && k < |tr| && t < |tr[k].threads|
    requires tr[k].threads[t].kind.Comparer? && tr[k].threads[t].pc.Final?
    ensures
      var th := tr[k].threads[t];
      && multiset(th.visited) == multiset(tr[0].order) && Distinct(th.visited)
      && |th.visited| - 1 == th.pos == |tr[0].order| - 1
      && th.count == Hits(th.kind.order, th.visited)
  {
    hide LinkOk, MarkOk, LockOk, PairOk, Run;
    RunInv(tr, k);
    var s, th := tr[k], tr[k].threads[t];
    SameSize(s.order, tr[0].order);
    assert ThreadOk(s, t) && PassOk(s, t);
    assert s.order[..th.pos + 1] == s.order;
    SameDistinct(th.visited, s.order);
  }

  lemma DistinctOnce(b: seq<Node>, x: Node)
    requires Distinct(b)
    ensures multiset(b)[x] <= 1
  {
    if k :| 0 <= k < |b| && b[k] == x {
      assert b == b[..k] + [x] + b[k + 1..];
      assert x !in b[..k] && x !in b[k + 1..];
    }
  }

  lemma SameDistinct(a: seq<Node>, b: seq<Node>)
    requires multiset(a) == multiset(b) && Distinct(b)
    ensures Distinct(a)
  {
    forall i, j | 0 <= i < j < |a|
      ensures a[i] != a[j]
    {
      assert a == a[..j] + [a[j]] + a[j + 1..];
      assert a[i] in multiset(a[..j]);
      DistinctOnce(b, a[j]);
    }
  }

  // What one step changes of the threads and of the logical order.
  lemma StepFrame(s: State, t: nat, coin: bool)
    requires t < |s.threads| && Safe(s, t)
    ensures
      var s', th := Step(s, t, coin), s.threads[t];
      && s'.threads == s.threads[t := s'.threads[t]]
      && s'.order == if th.pc.Rewire1? then Swapped(s.order, th.pos + 1) else s.order
  {
    hide AfterLock, AfterUnlock, Locked, Unlocked, Advance, Swapped;
  }

  /** While a thread is in a pass, no step of another thread touches its locals, replaces the node it has
      as prev at its logical position, or exchanges a node it has passed with one still ahead. */
  lemma OthersKeepPlace(s: State, t: nat, coin: bool, s': State, u: nat)
    requires Inv(s) && StepTo(s, t, coin, s') && u < |s.threads| && u != t && InPass(s.threads[u].pc)
    ensures s'.threads[u] == s.threads[u] && s.threads[u].pos < |s.order| == |s'.order|
    ensures Holds(s.threads[u].pc, 0) ==> s'.order[s.threads[u].pos] == s.threads[u].prev
    ensures multiset(s'.order[..s.threads[u].pos + 1]) == multiset(s.order[..s.threads[u].pos + 1])
  {
    hide LinkOk, LockOk, PairOk, MarkOk, PassOk, Own, Step;
    StepFrame(s, t, coin);
    assert ThreadOk(s, u);
    if s.threads[t].pc.Rewire1? {
      Alone(s, t, u, s.threads[t].pos + 1);
      Alone(s, t, u, s.threads[t].pos + 2);
      SwapKeepsPlace(s.order, s.threads[u], s.threads[t].pos);
    }
  }

  lemma SwapKeepsPlace(o: seq<Node>, th: Thread, p: nat)
    requires p + 2 < |o| && Local(o, th) && InPass(th.pc) && !HoldsAt(th, p + 1) && !HoldsAt(th, p + 2)
    ensures Swapped(o, p + 1)[th.pos] == o[th.pos] || !Holds(th.pc, 0)
    ensures multiset(Swapped(o, p + 1)[..th.pos + 1]) == multiset(o[..th.pos + 1])
  {
    SwappedPrefix(o, p + 1, th.pos + 1);
  }

  // How many steps thread th still has to take before it is at the top of its outer loop again, at most.
  function Rank(n: nat, th: Thread): nat
  {
    match th.pc
    case Done => 0
    case Top => 1
    case LockFirst => 16 * n + 20
    case _ => 2 + 16 * (if th.pos < n then n - th.pos else 0) + Phase(th.pc)
  }

  function Phase(pc: Pc): nat
  {
    match pc
    case Test => 12
    case Coin => 11
    case ReadCur => 11
    case SwapLock => 10
    case ReadLock => 10
    case ReadNext => 9
    case ReadUnlock => 9
    case LockNext => 8
    case Bail => 8
    case Compare => 8
    case Rewire1 => 7
    case Unlock1 => 6
    case Rewire2 => 5
    case Unlock2 => 4
    case Rewire3 => 3
    case WalkLock => 2
    case _ => 1
  }

  // The thread th' is nearer to the end than th, by one position at most.
  predicate Advances(n: nat, th: Thread, th': Thread)
  {
    && Rank(n, th') < Rank(n, th)
    && (InPass(th.pc) && InPass(th'.pc) ==> th'.pos == th.pos + if th'.pc.Test? then 1 else 0)
  }

  lemma LockAdvances(n: nat, first: Node, th: Thread)
    requires IsLockPc(th.pc) && (InPass(th.pc) ==> th.pos < n)
    ensures Advances(n, th, AfterLock(first, th))
  {
  }

  lemma UnlockAdvances(n: nat, th: Thread)
    requires IsUnlockPc(th.pc) && th.pos < n && (th.pc.WalkUnlock? ==> th.pos + 1 < n)
    ensures Advances(n, th, AfterUnlock(th))
  {
  }

  lemma ReadAdvances(o: seq<Node>, th: Thread, stop: bool, v: Node?, coin: bool)
    requires Local(o, th) && IsPlainPc(th.pc) && !th.pc.Done? && (th.pc.Top? ==> stop)
    requires th.pc.Compare? ==> th.prev != null && th.cur != null
    ensures Advances(|o|, th, Advance(th, stop, v, coin))
  {
  }

  /** Every step of its own brings a thread nearer to the end of its pass, or after stop to its end; an
      iteration moves it on by exactly one position. */
  lemma OwnStepAdvances(s: State, t: nat, coin: bool, s': State)
    requires Inv(s) && StepTo(s, t, coin, s') && (s.threads[t].pc.Top? ==> s.stop)
    ensures Advances(|s.order|, s.threads[t], s'.threads[t])
  {
    hide LinkOk, LockOk, PairOk, MarkOk, PassOk, Own, Shape, Advances, AfterLock, AfterUnlock, Advance;
    var th := s.threads[t];
    assert ThreadOk(s, t);
    if IsLockPc(th.pc) {
      LockAdvances(|s.order|, s.first, th);
    } else if IsUnlockPc(th.pc) {
      UnlockAdvances(|s.order|, th);
    } else if IsPlainPc(th.pc) {
      ReadAdvances(s.order, th, s.stop, ReadValue(s, th), coin);
    } else {
      RewireAdvances(s.order, th);
    }
  }

  lemma RewireAdvances(o: seq<Node>, th: Thread)
    requires Local(o, th)
    ensures th.pc.Rewire1? ==> Advances(|o|, th, th.(pc := Unlock1))
    ensures th.pc.Rewire2? ==> Advances(|o|, th, th.(pc := Unlock2))
    ensures th.pc.Rewire3? ==> Advances(|o|, th, th.(pc := Test, prev := th.nxt, pos := th.pos + 1))
  {
  }

  // How often thread t has moved between states i and j of the run.
  ghost function Moves(tr: seq<State>, t: nat, i: nat, j: nat): nat
    requires i <= j < |tr| && forall k :: 0 <= k < |tr| ==> t < |tr[k].threads|
  {
    if i == j then 0
    else Moves(tr, t, i, j - 1) + if tr[j].threads[t] != tr[j - 1].threads[t] then 1 else 0
  }

  lemma StepOthers(s: State, t: nat, coin: bool, s': State, u: nat)
    requires Inv(s) && StepTo(s, t, coin, s') && u < |s.threads| && u != t
    ensures s'.threads[u] == s.threads[u] && |s'.threads| == |s.threads|
  {
    hide Shape, LinkOk, LockOk, PairOk, MarkOk, PassOk, ThreadOk, Step;
    StepFrame(s, t, coin);
  }

  lemma NextAdvances(s: State, s': State, t: nat)
    requires Inv(s) && Next(s, s') && t < |s.threads| && InPass(s.threads[t].pc)
    ensures t < |s'.threads|
    ensures s'.threads[t] == s.threads[t] || Rank(|s.order|, s'.threads[t]) < Rank(|s.order|, s.threads[t])
  {
    hide Shape, LinkOk, LockOk, PairOk, MarkOk, PassOk, ThreadOk, Step, Rank;
    if u: nat, coin :| StepTo(s, u, coin, s') {
      if u == t {
        OwnStepAdvances(s, t, coin, s');
        StepFrame(s, t, coin);
      } else {
        StepOthers(s, u, coin, s', t);
      }
    }
  }

  /** Between two states of one pass a thread takes at most the difference of its ranks in steps, whatever the
      other threads do meanwhile: a pass over n nodes is over after 16 * n + 20 steps of its own. */
  lemma {:induction false} PassEnds(tr: seq<State>, t: nat, i: nat, j: nat)
    requires Run(tr) && i <= j < |tr| && forall k :: 0 <= k < |tr| ==> t < |tr[k].threads|
    requires forall k :: i <= k <= j ==> InPass(tr[k].threads[t].pc)
    ensures Moves(tr, t, i, j) + Rank(|tr[0].order|, tr[j].threads[t]) <= Rank(|tr[0].order|, tr[i].threads[t])
    ensures Rank(|tr[0].order|, tr[i].threads[t]) <= 16 * |tr[0].order| + 20
  {
    hide Shape, LinkOk, LockOk, PairOk, MarkOk, PassOk, ThreadOk, Step, Rank, Phase;
    if i == j {
      InitNonempty(tr);
      RankBound(|tr[0].order|, tr[j].threads[t]);
    } else {
      PassEnds(tr, t, i, j - 1);
      RunInv(tr, j - 1);
      SameSize(tr[j - 1].order, tr[0].order);
      assert Next(tr[j - 1], tr[j]);
      NextAdvances(tr[j - 1], tr[j], t);
    }
  }

  lemma InitNonempty(tr: seq<State>)
    requires Run(tr)
    ensures |tr[0].order| > 0
  {
  }

  lemma RankBound(n: nat, th: Thread)
    requires n > 0
    ensures Rank(n, th) <= 16 * n + 20
  {
  }

  // ---------------------------------------------------------------- no deadlock, and an end

  // Thread t waits for a lock that thread u holds.
  ghost predicate WaitsFor(s: State, t: nat, u: nat)
    requires Shape(s)
  {
    && t < |s.threads| && u < |s.threads| && IsLockPc(s.threads[t].pc) && LockPlace(s.threads[t]) < |s.order|
    && !CanLock(s.build, s.lock[s.order[LockPlace(s.threads[t])]], s.threads[t].kind)
    && InLock(s.lock[s.order[LockPlace(s.threads[t])]], u)
  }

  /** Who waits for a waiting thread waits for a node earlier in the current logical order, so no circle of
      threads waits, however swaps have reordered the list. */
  lemma WaitsEarlier(s: State, t: nat, u: nat)
    requires Inv(s) && WaitsFor(s, t, u)
    ensures u != t && InPass(s.threads[u].pc)
    ensures IsLockPc(s.threads[u].pc) ==> LockPlace(s.threads[t]) < LockPlace(s.threads[u])
  {
    hide LinkOk, MarkOk, LockOk, ThreadOk, PassOk;
    assert PairOk(s, LockPlace(s.threads[t]), u);
  }

  // A thread that cannot step waits for another.
  lemma BlockedWaits(s: State, t: nat) returns (u: nat)
    requires Inv(s) && t < |s.threads| && !s.threads[t].pc.Done? && Safe(s, t) && !Enabled(s, t)
    ensures WaitsFor(s, t, u)
  {
    hide LinkOk, MarkOk, PairOk, PassOk, Own;
    var th := s.threads[t];
    assert ThreadOk(s, t);
    var i := LockPlace(th);
    assert s.order[i] == Wanted(s.first, th);
    assert LockOk(s, i);
    match s.lock[s.order[i]] {
      case Exclusive(o) => u := o;
      case Shared(rs) => u :| u in rs;
    }
  }

  lemma {:induction false} FindEnabled(s: State, t: nat) returns (u: nat)
    requires Inv(s) && t < |s.threads| && !s.threads[t].pc.Done?
    ensures u < |s.threads| && Safe(s, u) && Enabled(s, u)
    decreases if IsLockPc(s.threads[t].pc) then 1 + |s.order| - LockPlace(s.threads[t]) else 0
  {
    hide LinkOk, MarkOk, LockOk, PairOk, ThreadOk, PassOk, LockPlace;
    InvSafe(s, t);
    u := t;
    if !Enabled(s, t) {
      var v := BlockedWaits(s, t);
      WaitsEarlier(s, t, v);
      u := FindEnabled(s, v);
    }
  }

  /** In every state of every run, unless all threads have finished, some thread can take its next step; and
      whichever it is, the step touches only nodes of the list. */
  lemma NeverStuck(tr: seq<State>, k: nat)
    requires Run(tr) && k < |tr|
    ensures forall t :: 0 <= t < |tr[k].threads| ==> Safe(tr[k], t)
    ensures (exists t :: 0 <= t < |tr[k].threads| && !tr[k].threads[t].pc.Done?)
      ==> exists t :: 0 <= t < |tr[k].threads| && Enabled(tr[k], t)
  {
    RunInv(tr, k);
    forall t | 0 <= t < |tr[k].threads|
      ensures Safe(tr[k], t)
    {
      InvSafe(tr[k], t);
    }
    if t :| 0 <= t < |tr[k].threads| && !tr[k].threads[t].pc.Done? {
      var u := FindEnabled(tr[k], t);
    }
  }

  function RankOf(n: nat): Thread -> nat { th => Rank(n, th) }

  /** Once stop is raised every step of any thread uses up rank, of which n nodes and m threads have at most
      m * (16 * n + 20): with NeverStuck, all threads finish, under every schedule. */
  lemma {:induction false} StopEnds(tr: seq<State>, k: nat, j: nat)
    requires Run(tr) && k <= j < |tr| && tr[k].stop
    ensures tr[j].stop && |tr[j].threads| == |tr[0].threads|
    ensures
      var f := RankOf(|tr[0].order|);
      && j - k + Sum(tr[j].threads, f) <= Sum(tr[k].threads, f)
      && Sum(tr[k].threads, f) <= |tr[0].threads| * (16 * |tr[0].order| + 20)
  {
    hide Shape, LinkOk, LockOk, PairOk, MarkOk, PassOk, ThreadOk, Step, Rank;
    var f := RankOf(|tr[0].order|);
    RunInv(tr, j);
    if j == k {
      InitNonempty(tr);
      forall th | th in tr[k].threads
        ensures f(th) <= 16 * |tr[0].order| + 20
      {
        RankBound(|tr[0].order|, th);
      }
      SumAtMost(tr[k].threads, f, 16 * |tr[0].order| + 20);
    } else {
      StopEnds(tr, k, j - 1);
      var s, s' := tr[j - 1], tr[j];
      RunInv(tr, j - 1);
      SameSize(s.order, tr[0].order);
      assert Next(s, s');
      var t: nat, coin :| StepTo(s, t, coin, s');
      OwnStepAdvances(s, t, coin, s');
      StepFrame(s, t, coin);
      SumUpdate(s.threads, t, s'.threads[t], f);
      StopStays(s, t, coin);
    }
  }

  lemma StopStays(s: State, t: nat, coin: bool)
    requires t < |s.threads| && Safe(s, t)
    ensures Step(s, t, coin).stop == s.stop
  {
    hide AfterLock, AfterUnlock, Locked, Unlocked, Advance, Swapped;
  }
}
