/**
 Which runs of the two schedulers complete all their tasks: conditions on the tasks before the run.
 */
module UserThreadOutcomes {
  import opened Counting
  import opened UserThreads
  import opened UserThreadRuns

  // The stretches a waiting thread still needs; the others take no part in a run to come.
  function Need(th: Task): nat { if th.status == READY then th.left + 1 else 0 }

  // Every task that was waiting has been run to its end.
  ghost predicate Served(s: Sched, f: Sched)
  {
    |f.tasks| == |s.tasks| && forall i :: 0 <= i < |s.tasks| && s.tasks[i].status == READY ==> Complete(f.tasks[i])
  }

  // ---------------------------------------------------------------- the list

  // A thread by its position, and the stretches it still needs.
  datatype Contender = Contender(pos: nat, need: nat)

  /** Two threads alternate, a being the first to run, until one is done: the other, and what it then still needs. */
  function Duel(a: Contender, b: Contender): Contender
  {
    if b.need == 0 then a
    else if a.need == 0 then b
    else if a.need <= b.need then b.(need := b.need - a.need + 1)
    else a.(need := a.need - b.need)
  }

  // The threads from position i on, one after the other, against c.
  function Survivor(ts: seq<Task>, i: nat, c: Contender): Contender
    requires i <= |ts|
    decreases |ts| - i
  {
    if i == |ts| then c else Survivor(ts, i + 1, Duel(c, Contender(i, Need(ts[i]))))
  }

  lemma {:induction false} SurvivorSkips(ts: seq<Task>, i: nat, j: nat, c: Contender)
    requires i <= j <= |ts| && forall x :: i <= x < j ==> Need(ts[x]) == 0
    ensures Survivor(ts, i, c) == Survivor(ts, j, c)
    decreases j - i
  {
    if i < j {
      SurvivorSkips(ts, i + 1, j, c);
    }
  }

  lemma {:induction false} SurvivorSame(ts: seq<Task>, us: seq<Task>, i: nat, c: Contender)
    requires i <= |ts| == |us| && forall x :: i <= x < |ts| ==> ts[x] == us[x]
    ensures Survivor(ts, i, c) == Survivor(us, i, c)
    decreases |ts| - i
  {
    if i < |ts| {
      SurvivorSame(ts, us, i + 1, Duel(c, Contender(i, Need(ts[i]))));
    }
  }

  // The rival of the active thread is the only other one READY before position i; with o == |tasks| it has none.
  predicate Rival(s: Sched, i: nat, o: nat)
  {
    && s.active < i <= |s.tasks| && o != s.active
    && (o == |s.tasks| || (o < i && s.tasks[o].status == READY))
    && forall x :: 0 <= x < i && x != s.active && x != o ==> s.tasks[x].status != READY
  }

  // Whoever is left of the two.
  function Rivalry(s: Sched, o: nat): Contender
    requires s.active < |s.tasks|
  {
    Duel(Contender(s.active, s.tasks[s.active].left + 1), Contender(o, if o < |s.tasks| then Need(s.tasks[o]) else 0))
  }

  // The first READY position from i on.
  function FirstReady(ts: seq<Task>, i: nat): (j: nat)
    requires i <= |ts|
    ensures i <= j <= |ts|
    ensures j < |ts| ==> ts[j].status == READY
    ensures forall x :: i <= x < j ==> ts[x].status != READY
    decreases |ts| - i
  {
    if i == |ts| || ts[i].status == READY then i else FirstReady(ts, i + 1)
  }

  // Whom the active thread hands over to.
  function Successor(s: Sched, i: nat, o: nat): nat
    requires i <= |s.tasks|
  {
    if o < |s.tasks| then o else FirstReady(s.tasks, i)
  }

  lemma ListTurn(s: Sched, i: nat, o: nat)
    requires Live(s) && s.version.List? && Rival(s, i, o) && !Turn(s).finished
    ensures var j := Successor(s, i, o); j < |s.tasks| && Turn(s) == Switch(Ran(s), j) && s.tasks[j].status == READY
  {
    var s1, n, j := Ran(s), |s.tasks|, Successor(s, i, o);
    forall e | 0 <= e < j
      ensures s1.tasks[At(n, 0, e)].status != READY || e == o < n
    {
    }
    var d := Search(s1.tasks, READY, 0, 0, n);
    assert d < n && At(n, 0, d) == d && s1.tasks[d].status == READY;
    assert j < n ==> At(n, 0, j) == j && s1.tasks[j].status == READY;
    assert d == j;
  }

  lemma DuelTurn(a: Contender, b: Contender)
    requires a.need > 0 && b.need > 0
    ensures Duel(a, b) == Duel(b, a.(need := a.need - 1))
    ensures forall p :: Duel(a, Contender(p, 0)) == a && Duel(b, Contender(p, 0)) == b
  {
  }

  lemma SwitchTasks(s: Sched, j: nat, x: nat)
    requires s.active < |s.tasks| && j < |s.tasks| && j != s.active && x < |s.tasks|
    ensures
      var th := s.tasks[x];
      Switch(s, j).tasks[x] ==
        if x == j then th.(status := RUNNING)
        else if x == s.active then th.(status := if th.status == TERMINATED then IDLE else READY)
        else th
  {
  }

  // After its stretch the active thread has handed over to j.
  ghost predicate HandsOver(s: Sched, j: nat, s': Sched)
  {
    && s.active < |s.tasks| == |s'.tasks| && j < |s.tasks| && s'.active == j != s.active
    && forall x :: 0 <= x < |s.tasks| ==>
      var th := s.tasks[x];
      s'.tasks[x] ==
        if x == j then th.(status := RUNNING)
        else if x == s.active then Stretch(th).(status := if th.left > 0 then READY else IDLE)
        else th
  }

  lemma TurnHandsOver(s: Sched, j: nat)
    requires Live(s) && j < |s.tasks| && s.tasks[j].status == READY && Turn(s) == Switch(Ran(s), j)
    ensures HandsOver(s, j, Turn(s))
  {
    forall x | 0 <= x < |s.tasks|
      ensures Turn(s).tasks[x] == Switch(Ran(s), j).tasks[x]
    {
      SwitchTasks(Ran(s), j, x);
    }
    hide Turn;
  }

  // The situation after a turn: the one that yielded is the new rival, unless it is done.
  lemma ListNext(s: Sched, i: nat, o: nat, s': Sched) returns (i': nat, o': nat)
    requires Live(s) && s.version.List? && Rival(s, i, o) && HandsOver(s, Successor(s, i, o), s')
    requires s.tasks[Successor(s, i, o)].status == READY
    ensures Rival(s', i', o') && i <= i'
    ensures Survivor(s'.tasks, i', Rivalry(s', o')) == Survivor(s.tasks, i, Rivalry(s, o))
  {
    var n, j, a := |s.tasks|, Successor(s, i, o), s.active;
    i' := if o < n then i else j + 1;
    o' := if s.tasks[a].left > 0 then a else n;
    var c, b := Contender(a, s.tasks[a].left + 1), Contender(j, Need(s.tasks[j]));
    DuelTurn(c, b);
    hide Survivor, Duel;
    assert Rivalry(s', o') == Duel(c, b);
    SurvivorSame(s.tasks, s'.tasks, i', Duel(c, b));
    if o == n {
      SurvivorSkips(s.tasks, i, j, c);
      SurvivorNext(s.tasks, j, c);
    }
  }

  lemma SurvivorNext(ts: seq<Task>, i: nat, c: Contender)
    requires i < |ts|
    ensures Survivor(ts, i, c) == Survivor(ts, i + 1, Duel(c, Contender(i, Need(ts[i]))))
  {
  }

  /** Who is active at the end of a run of the list scheduler, and what it lacks. */
  lemma {:induction false} ListFinish(s: Sched, i: nat, o: nat)
    requires Live(s) && s.version.List? && Rival(s, i, o)
    ensures
      var f := Finish(s);
      Survivor(s.tasks, i, Rivalry(s, o)) == Contender(f.active, Missing(f.tasks[f.active]) + 1)
    decreases Sum(s.tasks, StillToRun)
  {
    hide Turn, Survivor, Duel;
    TurnKeeps(s);
    if Turn(s).finished {
      ListLast(s, i, o);
    } else {
      ListTurn(s, i, o);
      TurnHandsOver(s, Successor(s, i, o));
      var i', o' := ListNext(s, i, o, Turn(s));
      ListFinish(Turn(s), i', o');
    }
  }

  lemma ListLast(s: Sched, i: nat, o: nat)
    requires Live(s) && s.version.List? && Rival(s, i, o) && Turn(s).finished
    ensures Survivor(s.tasks, i, Rivalry(s, o)) == Contender(s.active, Missing(Turn(s).tasks[s.active]) + 1)
    ensures Turn(s).active == s.active
  {
    TurnKeeps(s);
    TurnEnds(s);
    assert forall x: nat :: x < |s.tasks| && x != s.active ==> Sees(s, x);
    assert o == |s.tasks|;
    SurvivorSkips(s.tasks, i, |s.tasks|, Rivalry(s, o));
    assert TaskOk(s.tasks[s.active]);
  }

  /** The list scheduler runs every waiting task to its end if and only if the fold over their needs leaves one
      stretch. In any case the thread that the fold leaves is the active one at the end and lacks one stretch less
      than the fold, and every other one is done. */
  lemma ListCompletes(s: Sched)
    requires Sound(s.tasks) && !s.finished && s.version.List? && HasReady(s)
    ensures
      var f, e := RunAll(s), Survivor(s.tasks, 0, Contender(0, 0));
      && f.active == e.pos < |s.tasks| && s.tasks[e.pos].status == READY
      && Missing(f.tasks[e.pos]) == e.need - 1
      && (forall i :: 0 <= i < |s.tasks| && i != e.pos && s.tasks[i].status == READY ==> Complete(f.tasks[i]))
      && (Served(s, f) <==> e.need == 1)
  {
    StartLive(s);
    var d := Search(s.tasks, READY, 0, 0, |s.tasks|);
    assert At(|s.tasks|, 0, d) == d;
    forall x | 0 <= x < d
      ensures s.tasks[x].status != READY
    {
      assert At(|s.tasks|, 0, x) == x;
    }
    var s1 := Start(s);
    assert Rival(s1, d + 1, |s.tasks|);
    SurvivorSkips(s.tasks, 0, d, Contender(0, 0));
    SurvivorSame(s.tasks, s1.tasks, d + 1, Contender(d, Need(s.tasks[d])));
    ListFinish(s1, d + 1, |s.tasks|);
    ListExit(s1);
    forall i: nat | i < |s.tasks|
      ensures s.tasks[i].status == READY ==> TakesPart(s1, i)
      ensures i == RunAll(s).active ==> s.tasks[i].status == READY
    {
      FinishTask(s1, i);
    }
  }

  /** A task added after a run of the list scheduler, and reset_scheduler: the second run serves it first and alone, so
      it runs one stretch, and is complete only if it does not yield. */
  lemma SecondRunServes(s: Sched, k: nat)
    requires Sound(s.tasks) && !s.finished && s.version.List? && HasReady(s)
    ensures
      var f := RunAll(s);
      var r := RunAll(Reset(f.(tasks := Add(List, f.tasks, k))));
      && r.active < |r.tasks| && Add(List, f.tasks, k)[r.active] == Task(READY, k, 0, k + 1)
      && Missing(r.tasks[r.active]) == k
  {
    var f := RunAll(s);
    StartLive(s);
    NoneReady(Start(s));
    OnlyReady(f.tasks, k);
    var ts := Add(List, f.tasks, k);
    AddKeepsStranded(List, f.tasks, k);
    hide RunAll, Add;
    var p: nat :| p < |ts| && ts[p] == NewTask(k) && forall i :: 0 <= i < |ts| && i != p ==> ts[i].status != READY;
    RunsTheOne(Reset(f.(tasks := ts)), p, k);
  }

  lemma RunsTheOne(s: Sched, p: nat, k: nat)
    requires Sound(s.tasks) && !s.finished && s.version.List? && p < |s.tasks| && s.tasks[p] == NewTask(k)
    requires forall i :: 0 <= i < |s.tasks| && i != p ==> s.tasks[i].status != READY
    ensures RunAll(s).active == p < |RunAll(s).tasks| && Missing(RunAll(s).tasks[p]) == k
  {
    hide RunAll;
    var ts := s.tasks;
    assert At(|ts|, 0, p) == p;
    SurvivorSkips(ts, 0, p, Contender(0, 0));
    SurvivorNext(ts, p, Contender(0, 0));
    SurvivorSkips(ts, p + 1, |ts|, Contender(p, k + 1));
    ListCompletes(s);
  }

  lemma OnlyReady(ts: seq<Task>, k: nat)
    requires forall i :: 0 <= i < |ts| ==> ts[i].status != READY
    ensures
      var us := Add(List, ts, k);
      exists p: nat :: p < |us| && us[p] == NewTask(k) && forall i :: 0 <= i < |us| && i != p ==> us[i].status != READY
  {
    var us := Add(List, ts, k);
    if ts != [] {
      var d := Search(ts, IDLE, 0, 0, |ts|);
      if d < |ts| {
        assert us[d] == NewTask(k);
      } else {
        assert us[0] == NewTask(k);
      }
    } else {
      assert us[0] == NewTask(k);
    }
  }

  // ---------------------------------------------------------------- the ring

  // The thread at position i runs in round r, the first being round 0.
  predicate In(o: seq<Task>, r: nat, i: int) { 0 <= i < |o| && Need(o[i]) > r }

  // The first position from i on that runs in round r.
  function NextIn(o: seq<Task>, r: nat, i: nat): (j: nat)
    requires i <= |o|
    ensures i <= j <= |o|
    ensures j < |o| ==> In(o, r, j)
    ensures forall x :: i <= x < j ==> !In(o, r, x)
    decreases |o| - i
  {
    if i == |o| || In(o, r, i) then i else NextIn(o, r, i + 1)
  }

  predicate Last(o: seq<Task>, r: nat, l: int) { In(o, r, l) && NextIn(o, r, l + 1) == |o| }

  // The round is not left to the two ends of the ring alone: the one would not see the other.
  predicate NotTheEnds(o: seq<Task>, r: nat)
  {
    In(o, r, 0) && In(o, r, |o| - 1) && |o| > 1 ==> NextIn(o, r, 1) < |o| - 1
  }

  // The last thread of the round is at least two places after the first of the next, and so sees it.
  predicate ComesRound(o: seq<Task>, r: nat)
  {
    forall l :: 0 <= l < |o| && Last(o, r, l) && NextIn(o, r + 1, 0) < |o| ==> l - NextIn(o, r + 1, 0) >= 2
  }

  predicate RoundFits(o: seq<Task>, r: nat) { NotTheEnds(o, r) && ComesRound(o, r) }

  // What the thread at position i still needs when it is the turn of c in round r.
  ghost predicate DueAt(s: Sched, o: seq<Task>, r: nat, c: nat, i: int)
    requires 0 <= i < |o| == |s.tasks|
  {
    var ran := if i < c then r + 1 else r;
    if i == c then s.tasks[i].left + 1 == Need(o[i]) - r
    else
      && Need(s.tasks[i]) == (if In(o, ran, i) then Need(o[i]) - ran else 0)
      && (Need(o[i]) > 0 ==> !Stranded(s.tasks[i]))
  }

  ghost predicate Round(s: Sched, o: seq<Task>, r: nat, c: nat)
  {
    && Live(s) && s.version.Ring? && |s.tasks| == |o| && s.active == c && In(o, r, c)
    && forall i :: 0 <= i < |o| ==> DueAt(s, o, r, c, i)
  }

  // Everybody who needed anything at the start has run to his end.
  ghost predicate AllDone(o: seq<Task>, f: Sched)
  {
    |f.tasks| == |o| && forall i :: 0 <= i < |o| && Need(o[i]) > 0 ==> Complete(f.tasks[i])
  }

  // Who is READY while it is the turn of c.
  lemma Waits(s: Sched, o: seq<Task>, r: nat, c: nat, i: nat)
    requires Round(s, o, r, c) && i < |o| && i != c
    ensures s.tasks[i].status == READY <==> In(o, if i < c then r + 1 else r, i)
    ensures s.tasks[i].status == READY ==> In(o, r, i)
  {
    assert DueAt(s, o, r, c, i);
  }

  // The search of the ring finds j if it sees it and nobody before it is READY.
  lemma RingTurn(s: Sched, j: nat)
    requires Live(s) && s.version.Ring? && Sees(s, j) && s.tasks[j].status == READY
    requires forall i: nat ::
      i < |s.tasks| && 0 < Distance(|s.tasks|, s.active, i) < Distance(|s.tasks|, s.active, j) ==>
        s.tasks[i].status != READY
    ensures HandsOver(s, j, Turn(s)) && Live(Turn(s))
  {
    var n, c, s1 := |s.tasks|, s.active, Ran(s);
    var d := Distance(n, c, j);
    forall e | 0 <= e < d
      ensures s1.tasks[At(n, c, e)].status != READY
    {
      assert e > 0 ==> Distance(n, c, At(n, c, e)) == e;
    }
    SearchIs(s1.tasks, READY, c, n - 1, d);
    TurnHandsOver(s, j);
    TurnKeeps(s);
  }

  // The turn passes to a later thread of the round.
  lemma RoundOn(s: Sched, o: seq<Task>, r: nat, c: nat, j: nat)
    requires Round(s, o, r, c) && j == NextIn(o, r, c + 1) < |o| && !(c == 0 && j == |o| - 1)
    ensures Round(Turn(s), o, r, j)
  {
    forall i: nat | i < |o| && i != c
      ensures s.tasks[i].status == READY <==> In(o, if i < c then r + 1 else r, i)
    {
      Waits(s, o, r, c, i);
    }
    RingTurn(s, j);
    hide Turn;
    forall i | 0 <= i < |o|
      ensures DueAt(Turn(s), o, r, j, i)
    {
      assert DueAt(s, o, r, c, i);
    }
  }

  // The last of the round passes the turn to the first of the next.
  lemma RoundWraps(s: Sched, o: seq<Task>, r: nat, c: nat, f: nat)
    requires Round(s, o, r, c) && NextIn(o, r, c + 1) == |o| && f == NextIn(o, r + 1, 0) < |o| && c - f >= 2
    ensures Round(Turn(s), o, r + 1, f)
  {
    forall i: nat | i < |o| && i != c
      ensures s.tasks[i].status == READY <==> In(o, if i < c then r + 1 else r, i)
    {
      Waits(s, o, r, c, i);
    }
    RingTurn(s, f);
    hide Turn;
    var next := r + 1;
    forall i | 0 <= i < |o|
      ensures DueAt(Turn(s), o, next, f, i)
    {
      assert DueAt(s, o, r, c, i);
    }
  }

  // Somebody waits whom the active thread does not see, or the active thread is not done and is alone.
  lemma RoundBreaks(s: Sched, o: seq<Task>, r: nat, c: nat)
    requires Round(s, o, r, c)
    requires
      var j, f := NextIn(o, r, c + 1), NextIn(o, r + 1, 0);
      (c == 0 && j == |o| - 1) || (j == |o| && f < |o| && c - f < 2)
    ensures Turn(s).finished && !AllDone(o, Turn(s))
  {
    var j, f := NextIn(o, r, c + 1), NextIn(o, r + 1, 0);
    var left := if j < |o| then j else f;
    forall i: nat | Sees(s, i)
      ensures s.tasks[i].status != READY
    {
      Waits(s, o, r, c, i);
    }
    TurnEnds(s);
    TurnKeeps(s);
    assert DueAt(s, o, r, c, left);
    assert TaskOk(s.tasks[left]);
    assert !Complete(Turn(s).tasks[left]);
  }

  lemma RoundEnds(s: Sched, o: seq<Task>, r: nat, c: nat)
    requires Round(s, o, r, c) && NextIn(o, r, c + 1) == |o| && NextIn(o, r + 1, 0) == |o|
    ensures Turn(s).finished && AllDone(o, Turn(s))
  {
    forall i: nat | i < |o| && i != c
      ensures s.tasks[i].status != READY
    {
      Waits(s, o, r, c, i);
    }
    assert DueAt(s, o, r, c, c) && !In(o, r + 1, c);
    TurnEnds(s);
    TurnKeeps(s);
    forall i | 0 <= i < |o| && Need(o[i]) > 0
      ensures Complete(Turn(s).tasks[i])
    {
      assert DueAt(s, o, r, c, i) && TaskOk(s.tasks[i]);
    }
  }

  // What the rest of the run still has to meet.
  ghost predicate RestFits(o: seq<Task>, r: nat, c: nat)
  {
    (c == 0 ==> NotTheEnds(o, r)) && ComesRound(o, r) && forall q: nat :: q > r ==> RoundFits(o, q)
  }

  // The condition goes along with the turn.
  lemma RestOn(o: seq<Task>, r: nat, c: nat)
    requires In(o, r, c) && NextIn(o, r, c + 1) < |o| && !(c == 0 && NextIn(o, r, c + 1) == |o| - 1)
    ensures RestFits(o, r, NextIn(o, r, c + 1)) <==> RestFits(o, r, c)
  {
  }

  lemma RestWraps(o: seq<Task>, r: nat, c: nat)
    requires In(o, r, c) && NextIn(o, r, c + 1) == |o| && NextIn(o, r + 1, 0) < |o| && c - NextIn(o, r + 1, 0) >= 2
    ensures RestFits(o, r + 1, NextIn(o, r + 1, 0)) <==> RestFits(o, r, c)
  {
    var f := NextIn(o, r + 1, 0);
    LastIs(o, r, c);
    assert RoundFits(o, r + 1) <==> (f == 0 ==> NotTheEnds(o, r + 1)) && ComesRound(o, r + 1);
  }

  lemma RestBreaks(o: seq<Task>, r: nat, c: nat)
    requires In(o, r, c)
    requires
      var j, f := NextIn(o, r, c + 1), NextIn(o, r + 1, 0);
      (c == 0 && j == |o| - 1) || (j == |o| && f < |o| && c - f < 2)
    ensures !RestFits(o, r, c)
  {
    if NextIn(o, r, c + 1) == |o| {
      assert Last(o, r, c);
    }
  }

  lemma RestEnds(o: seq<Task>, r: nat, c: nat)
    requires In(o, r, c) && NextIn(o, r, c + 1) == |o| && NextIn(o, r + 1, 0) == |o|
    ensures RestFits(o, r, c)
  {
    forall q: nat, i | q > r
      ensures !In(o, q, i)
    {
      assert !In(o, r + 1, i);
    }
    if c == 0 && In(o, r, |o| - 1) && |o| > 1 {
      assert false;
    }
  }

  lemma {:induction false} RingFinish(s: Sched, o: seq<Task>, r: nat, c: nat)
    requires Round(s, o, r, c)
    ensures AllDone(o, Finish(s)) <==> RestFits(o, r, c)
    decreases Sum(s.tasks, StillToRun)
  {
    hide Turn, DueAt, AllDone, RestFits;
    TurnKeeps(s);
    var j, f := NextIn(o, r, c + 1), NextIn(o, r + 1, 0);
    if (c == 0 && j == |o| - 1) || (j == |o| && f < |o| && c - f < 2) {
      RoundBreaks(s, o, r, c);
      RestBreaks(o, r, c);
    } else if j < |o| {
      RoundOn(s, o, r, c, j);
      RestOn(o, r, c);
      RingFinish(Turn(s), o, r, j);
    } else if f < |o| {
      RoundWraps(s, o, r, c, f);
      RestWraps(o, r, c);
      RingFinish(Turn(s), o, r + 1, f);
    } else {
      RoundEnds(s, o, r, c);
      RestEnds(o, r, c);
    }
  }

  lemma RestAll(o: seq<Task>, d: nat)
    requires In(o, 0, d) && forall x :: 0 <= x < d ==> !In(o, 0, x)
    ensures RestFits(o, 0, d) <==> forall r: nat :: RoundFits(o, r)
  {
    assert d > 0 ==> !In(o, 0, 0);
    if RestFits(o, 0, d) {
      forall r: nat
        ensures RoundFits(o, r)
      {
        assert r > 0 || RoundFits(o, 0);
      }
    }
    if forall r: nat :: RoundFits(o, r) {
      assert RoundFits(o, 0);
    }
  }

  lemma StartRound(s: Sched)
    requires Sound(s.tasks) && !s.finished && s.version.Ring? && HasReady(s)
    ensures var d := Start(s).active; Round(Start(s), s.tasks, 0, d) && forall x :: 0 <= x < d ==> !In(s.tasks, 0, x)
  {
    StartLive(s);
    var o, s1 := s.tasks, Start(s);
    var d := s1.active;
    assert d == Search(o, READY, 0, 0, |o|) && At(|o|, 0, d) == d;
    forall x | 0 <= x < d
      ensures o[x].status != READY
    {
      assert At(|o|, 0, x) == x;
    }
    forall i | 0 <= i < |o|
      ensures DueAt(s1, o, 0, d, i)
    {
    }
  }

  /** The ring scheduler runs every waiting task to its end if and only if no round is left to the two ends of
      the ring alone, and the last thread of each round is at least two places after the first of the next. */
  lemma RingCompletes(s: Sched)
    requires Sound(s.tasks) && !s.finished && s.version.Ring? && HasReady(s)
    ensures Served(s, RunAll(s)) <==> forall r: nat :: RoundFits(s.tasks, r)
  {
    hide Start, RestFits, RoundFits;
    StartLive(s);
    StartRound(s);
    RingFinish(Start(s), s.tasks, 0, Start(s).active);
    RestAll(s.tasks, Start(s).active);
  }

  // The run ends in round r with the turn of c: it sees nobody who waits.
  predicate StopsAt(o: seq<Task>, r: nat, c: nat)
  {
    && In(o, r, c)
    && var j, f := NextIn(o, r, c + 1), NextIn(o, r + 1, 0);
       (c == 0 && j == |o| - 1) || (j == |o| && (f == |o| || c - f < 2))
  }

  // What is left to do for the thread at position i when the run ends in round r with the turn of c.
  function LeftOver(o: seq<Task>, r: nat, c: nat, i: nat): nat
    requires i < |o|
  {
    var ran := if i <= c then r + 1 else r;
    if Need(o[i]) > ran then Need(o[i]) - ran else 0
  }

  lemma StopLeaves(s: Sched, o: seq<Task>, r: nat, c: nat, i: nat)
    requires Round(s, o, r, c) && Turn(s).finished && i < |o| && Need(o[i]) > 0
    ensures Turn(s).active == c && |Turn(s).tasks| == |o| && Missing(Turn(s).tasks[i]) == LeftOver(o, r, c, i)
  {
    TurnKeeps(s);
    assert DueAt(s, o, r, c, i) && TaskOk(s.tasks[i]) && TaskOk(s.tasks[c]);
    hide Turn;
  }

  lemma {:induction false} RingStops(s: Sched, o: seq<Task>, r: nat, c: nat) returns (q: nat, d: nat)
    requires Round(s, o, r, c)
    ensures StopsAt(o, q, d) && r <= q && Finish(s).active == d
    ensures q > r ==> (c == 0 ==> NotTheEnds(o, r)) && ComesRound(o, r)
    ensures (q > r || c == 0) && d > 0 ==> NotTheEnds(o, q)
    ensures forall p :: r < p < q ==> RoundFits(o, p)
    ensures forall i: nat :: i < |o| && Need(o[i]) > 0 ==> Missing(Finish(s).tasks[i]) == LeftOver(o, q, d, i)
    decreases Sum(s.tasks, StillToRun)
  {
    hide Turn, DueAt, Missing, LeftOver;
    TurnKeeps(s);
    var j, f := NextIn(o, r, c + 1), NextIn(o, r + 1, 0);
    if StopsAt(o, r, c) {
      q, d := r, c;
      if j == |o| && f == |o| {
        RoundEnds(s, o, r, c);
      } else {
        RoundBreaks(s, o, r, c);
      }
      forall i: nat | i < |o| && Need(o[i]) > 0
        ensures Missing(Finish(s).tasks[i]) == LeftOver(o, q, d, i)
      {
        StopLeaves(s, o, r, c, i);
      }
      StopLeaves(s, o, r, c, c);
    } else if j < |o| {
      RoundOn(s, o, r, c, j);
      q, d := RingStops(Turn(s), o, r, j);
    } else {
      RoundWraps(s, o, r, c, f);
      q, d := RingStops(Turn(s), o, r + 1, f);
      LastIs(o, r, c);
    }
  }

  lemma LastIs(o: seq<Task>, r: nat, c: nat)
    requires In(o, r, c) && NextIn(o, r, c + 1) == |o|
    ensures forall l :: 0 <= l < |o| && Last(o, r, l) ==> l == c
  {
    forall l | 0 <= l < |o| && Last(o, r, l)
      ensures l == c
    {
      assert l <= c;
      assert In(o, r, c);
    }
  }

  /** Where a run of the ring scheduler ends and what it leaves undone: it stops in round q with the turn of thread
      d, where all rounds before q fit, and thread i has run once in each round up to that turn, or to its end. */
  lemma RingLeaves(s: Sched) returns (q: nat, d: nat)
    requires Sound(s.tasks) && !s.finished && s.version.Ring? && HasReady(s)
    ensures Ends(s.tasks, q, d) && RunAll(s).active == d
    ensures forall i: nat :: i < |s.tasks| && s.tasks[i].status == READY ==>
      Missing(RunAll(s).tasks[i]) == LeftOver(s.tasks, q, d, i)
  {
    hide Start, StopsAt, LeftOver, ComesRound;
    StartLive(s);
    StartRound(s);
    var c := Start(s).active;
    q, d := RingStops(Start(s), s.tasks, 0, c);
    assert c > 0 ==> !In(s.tasks, 0, 0);
    assert forall i: nat :: i < |s.tasks| && s.tasks[i].status == READY ==> Need(s.tasks[i]) > 0;
  }

  // The end of a run as RingLeaves describes it.
  ghost predicate Ends(o: seq<Task>, q: nat, d: nat)
  {
    StopsAt(o, q, d) && (forall p :: 0 <= p < q ==> RoundFits(o, p)) && (d > 0 ==> NotTheEnds(o, q))
  }

  lemma NobodyAfter(o: seq<Task>, q: nat, d: nat, x: nat)
    requires StopsAt(o, q, d) && RoundFits(o, q)
    ensures !In(o, q + 1, x)
  {
    assert NextIn(o, q, d + 1) == |o| ==> Last(o, q, d);
    assert NextIn(o, q + 1, 0) == |o|;
  }

  /** That description fits one round and one thread only. */
  lemma EndsOnce(o: seq<Task>, q: nat, d: nat, q': nat, d': nat)
    requires Ends(o, q, d) && Ends(o, q', d') && q <= q'
    ensures q == q' && d == d'
  {
    if q < q' {
      NobodyAfter(o, q, d, d');
    } else if NextIn(o, q, d + 1) == |o| && NextIn(o, q, d' + 1) == |o| {
      LastIs(o, q, d);
      assert Last(o, q, d');
    }
  }
}
