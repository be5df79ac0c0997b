/** Every operation of the queue comes to its return by its own steps, once the mutex is free. */
module QueueProgress {
  import opened PriorityOrder
  import opened Heap
  import opened QueueProtocol
  import QueueSafety
  import QueueTheorems

  function Repeat(a: Action, n: nat): seq<Action> {
    if n == 0 then [] else [a] + Repeat(a, n - 1)
  }

  /** Nothing but `a`, often enough, leads from `s` to `r`. */
  ghost predicate Reaches(s: State, a: Action, r: State) {
    exists n: nat :: Run(s, Repeat(a, n)) == r
  }

  lemma ReachesSelf(s: State, a: Action)
    ensures Reaches(s, a, s)
  {
    assert Run(s, Repeat(a, 0)) == s;
  }

  lemma ReachesNext(s: State, a: Action, r: State)
    requires Reaches(Step(s, a), a, r)
    ensures Reaches(s, a, r)
  {
    var n: nat :| Run(Step(s, a), Repeat(a, n)) == r;
    assert Repeat(a, n + 1)[1..] == Repeat(a, n);
    assert Run(s, Repeat(a, n + 1)) == r;
  }

  /** Who took which effect, in order. */
  function Commits(h: Trace): seq<(nat, Effect)> {
    match h
    case Start => []
    case Then(past, e) => Commits(past) + if e.Commit? then [(e.t, e.effect)] else []
  }

  /**
   * Since `s` thread `t` has taken this one effect and returned this result; it is idle, the mutex is
   * free, and the slice holds `items`.
   */
  ghost predicate Returned(s: State, r: State, t: nat, effect: Effect, result: Result, items: seq<Item>)
    requires t < |s.threads|
  {
    && !r.crashed && r.owner.Free? && r.items == items && r.closed == s.closed
    && r.threads == s.threads[t := Idle] && r.helpers == s.helpers
    && r.history.Then? && r.history.last == Return(t, result)
    && Commits(r.history) == Commits(s.history) + [(t, effect)]
  }

  /** Thread `t` has just called `op`. */
  function Called(s: State, t: nat, op: Op): State
    requires t < |s.threads|
  {
    Log(s.(threads := s.threads[t := Entry(op)]), Invoke(t, op))
  }

  lemma CallStep(s: State, t: nat, op: Op)
    requires !s.crashed && t < |s.threads| && s.threads[t] == Idle
    ensures Step(s, Call(t, op)) == Called(s, t, op)
  {
  }

  lemma ReturnedSinceCall(s: State, t: nat, op: Op, r: State, f: Effect, res: Result, items: seq<Item>)
    requires t < |s.threads| && Returned(Called(s, t, op), r, t, f, res, items)
    ensures Returned(s, r, t, f, res, items)
  {
    assert Called(s, t, op).threads[t := Idle] == s.threads[t := Idle];
  }

  // ---------------------------------------------------------------- the sifts

  function At(s: State, t: nat, pc: Pc, items: seq<Item>): State
    requires t < |s.threads|
  {
    s.(threads := s.threads[t := pc], items := items)
  }

  lemma AtAgain(s: State, t: nat, p: Pc, q: Pc, l: seq<Item>, m: seq<Item>)
    requires t < |s.threads|
    ensures At(At(s, t, p, l), t, q, m) == At(s, t, q, m)
  {
    assert s.threads[t := p][t := q] == s.threads[t := q];
  }

  ghost predicate Inside(s: State, t: nat, pc: Pc) {
    !s.crashed && t < |s.threads| && s.threads[t] == pc && s.owner == Thread(t)
  }

  lemma {:induction false} SiftUpReaches(s: State, t: nat, x: Item, i: nat, pick: bool)
    requires Inside(s, t, PushSift(x, i)) && i < |s.items|
    ensures Reaches(s, ThreadStep(t, pick), At(s, t, PushUnlock(x), SiftUp(s.items, i)))
    decreases i
  {
    var a, end := ThreadStep(t, pick), At(s, t, PushUnlock(x), SiftUp(s.items, i));
    if Rises(s.items, i) {
      var p, l := Parent(i), Swap(s.items, i, Parent(i));
      var r := At(s, t, PushSift(x, p), l);
      assert Step(s, a) == r;
      SiftUpReaches(r, t, x, p, pick);
      AtAgain(s, t, PushSift(x, p), PushUnlock(x), l, SiftUp(l, p));
    } else {
      assert Step(s, a) == end;
      ReachesSelf(end, a);
    }
    ReachesNext(s, a, end);
  }

  lemma {:induction false} SiftDownReaches(s: State, t: nat, x: Item, i: nat, b: bool, pick: bool)
    requires Inside(s, t, SiftRoot(x, i, b)) && i < |s.items|
    ensures Reaches(s, ThreadStep(t, pick), At(s, t, Leave(Got(x), b), SiftDown(s.items, i)))
    decreases |s.items| - i
  {
    var a, end := ThreadStep(t, pick), At(s, t, Leave(Got(x), b), SiftDown(s.items, i));
    var best := Best(s.items, i);
    if best != i {
      var l := Swap(s.items, i, best);
      var r := At(s, t, SiftRoot(x, best, b), l);
      assert Step(s, a) == r;
      SiftDownReaches(r, t, x, best, b, pick);
      AtAgain(s, t, SiftRoot(x, best, b), Leave(Got(x), b), l, SiftDown(l, best));
    } else {
      assert Step(s, a) == end;
      ReachesSelf(end, a);
    }
    ReachesNext(s, a, end);
  }

  lemma {:induction false} ReachesOn(s: State, a: Action, q: State, r: State)
    requires Reaches(s, a, q) && Reaches(q, a, r)
    ensures Reaches(s, a, r)
  {
    var m: nat :| Run(s, Repeat(a, m)) == q;
    var n: nat :| Run(q, Repeat(a, n)) == r;
    RepeatConcat(a, m, n);
    QueueTheorems.RunConcat(s, Repeat(a, m), Repeat(a, n));
    assert Run(s, Repeat(a, m + n)) == r;
  }

  lemma {:induction false} RepeatConcat(a: Action, m: nat, n: nat)
    ensures Repeat(a, m) + Repeat(a, n) == Repeat(a, m + n)
  {
    if m > 0 {
      RepeatConcat(a, m - 1, n);
      assert Repeat(a, m) + Repeat(a, n) == [a] + (Repeat(a, m - 1) + Repeat(a, n));
    } else {
      assert [] + Repeat(a, n) == Repeat(a, n);
    }
  }

  // ---------------------------------------------------------------- push

  lemma SignalQuiet(s: State)
    ensures Signal(s) == s.(waiters := Signal(s).waiters, history := Signal(s).history)
    ensures Commits(Signal(s).history) == Commits(s.history)
  {
  }

  lemma UnlockAndSignal(s: State, t: nat, x: Item, pick: bool) returns (r: State)
    requires Inside(s, t, PushUnlock(x))
    ensures Reaches(s, ThreadStep(t, pick), r)
    ensures !r.crashed && r.owner.Free? && r.items == s.items && r.closed == s.closed && r.helpers == s.helpers
    ensures r.threads == s.threads[t := Idle] && r.history.Then? && r.history.last == Return(t, NoResult)
    ensures Commits(r.history) == Commits(s.history)
  {
    var a := ThreadStep(t, pick);
    var q := s.(threads := s.threads[t := PushSignal(x)], owner := Free);
    assert Step(s, a) == q;
    var idle := q.(threads := q.threads[t := Idle]);
    assert idle.threads == s.threads[t := Idle];
    r := Log(Signal(idle), Return(t, NoResult));
    assert Step(q, a) == r;
    SignalQuiet(idle);
    ReachesSelf(r, a);
    ReachesNext(q, a, r);
    ReachesNext(s, a, r);
  }

  /** A push that has been called, with the mutex free, comes to return with its item in the slice. */
  lemma PushReaches(s: State, t: nat, x: Item, pick: bool) returns (r: State)
    requires !s.crashed && s.owner.Free? && t < |s.threads| && s.threads[t] == PushLock(x)
    ensures Reaches(s, ThreadStep(t, pick), r)
    ensures Returned(s, r, t, Enqueue(x), NoResult, Push(s.items, x))
  {
    var a, n := ThreadStep(t, pick), |s.items|;
    var s1 := s.(threads := s.threads[t := PushAppend(x)], owner := Thread(t));
    assert Step(s, a) == s1;
    var s2 := Log(At(s1, t, PushSift(x, n), s.items + [x]), Commit(t, Enqueue(x)));
    assert Step(s1, a) == s2;
    SiftUpReaches(s2, t, x, n, pick);
    var s3 := At(s2, t, PushUnlock(x), Push(s.items, x));
    r := UnlockAndSignal(s3, t, x, pick);
    assert r.threads == s.threads[t := Idle];
    ReachesOn(s2, a, s3, r);
    ReachesNext(s1, a, r);
    ReachesNext(s, a, r);
  }

  // ---------------------------------------------------------------- pops

  lemma LeaveReaches(s: State, t: nat, res: Result, b: bool, pick: bool) returns (r: State)
    requires Inside(s, t, Leave(res, b))
    ensures Reaches(s, ThreadStep(t, pick), r)
    ensures r == Log(s.(threads := s.threads[t := Idle], owner := Free), Return(t, res))
  {
    var a := ThreadStep(t, pick);
    r := Log(s.(threads := s.threads[t := Idle], owner := Free), Return(t, res));
    assert Step(s, a) == r;
    ReachesSelf(r, a);
    ReachesNext(s, a, r);
  }

  /** The slice after the root has been cut off, and where the thread then stands. */
  function CutOff(s: State, t: nat, b: bool): State
    requires t < |s.threads| && s.items != []
  {
    var x, rest := s.items[0], Beheaded(s.items);
    Log(At(s, t, if rest == [] then Leave(Got(x), b) else SiftRoot(x, 0, b), rest), Commit(t, Dequeue(x)))
  }

  lemma RootStep(s: State, t: nat, b: bool, pick: bool)
    requires Inside(s, t, Root(b)) && s.items != []
    ensures Step(s, ThreadStep(t, pick)) == CutOff(s, t, b)
  {
  }

  lemma CutOffReaches(s: State, t: nat, b: bool, pick: bool)
    requires Inside(s, t, Root(b)) && s.items != []
    ensures Reaches(CutOff(s, t, b), ThreadStep(t, pick), At(CutOff(s, t, b), t, Leave(Got(s.items[0]), b), Pop(s.items)))
  {
    var q, x := CutOff(s, t, b), s.items[0];
    if Beheaded(s.items) == [] {
      assert q.threads[t := Leave(Got(x), b)] == q.threads;
      ReachesSelf(q, ThreadStep(t, pick));
    } else {
      SiftDownReaches(q, t, x, 0, b, pick);
    }
  }

  lemma RootReaches(s: State, t: nat, b: bool, pick: bool) returns (r: State)
    requires Inside(s, t, Root(b)) && s.items != []
    ensures Reaches(s, ThreadStep(t, pick), r)
    ensures Returned(s, r, t, Dequeue(s.items[0]), Got(s.items[0]), Pop(s.items))
  {
    var a, x, q := ThreadStep(t, pick), s.items[0], CutOff(s, t, b);
    RootStep(s, t, b, pick);
    CutOffReaches(s, t, b, pick);
    var end := At(q, t, Leave(Got(x), b), Pop(s.items));
    r := LeaveReaches(end, t, Got(x), b, pick);
    assert r.threads == s.threads[t := Idle];
    ReachesOn(q, a, end, r);
    ReachesNext(s, a, r);
  }

  /** The effect and the result of a pop that does not wait. */
  function PopEffect(items: seq<Item>): Effect {
    if items == [] then FoundEmpty else Dequeue(items[0])
  }

  function PopResult(items: seq<Item>): Result {
    if items == [] then Nothing else Got(items[0])
  }

  lemma TryPopEmpty(s: State, t: nat, pick: bool) returns (r: State)
    requires Inside(s, t, TryCheck) && s.items == []
    ensures Reaches(s, ThreadStep(t, pick), r) && Returned(s, r, t, FoundEmpty, Nothing, [])
  {
    var q := Log(At(s, t, Leave(Nothing, false), []), Commit(t, FoundEmpty));
    assert Step(s, ThreadStep(t, pick)) == q;
    r := LeaveReaches(q, t, Nothing, false, pick);
    assert r.threads == s.threads[t := Idle];
    ReachesNext(s, ThreadStep(t, pick), r);
  }

  /** A check that finds items, in TryPop or in Pop. */
  lemma CheckTakes(s: State, t: nat, b: bool, pick: bool) returns (r: State)
    requires Inside(s, t, if b then PopCheck else TryCheck) && s.items != []
    ensures Reaches(s, ThreadStep(t, pick), r)
    ensures Returned(s, r, t, Dequeue(s.items[0]), Got(s.items[0]), Pop(s.items))
  {
    var q := At(s, t, Root(b), s.items);
    assert Step(s, ThreadStep(t, pick)) == q;
    r := RootReaches(q, t, b, pick);
    assert r.threads == s.threads[t := Idle];
    ReachesNext(s, ThreadStep(t, pick), r);
  }

  lemma LockStep(s: State, t: nat, b: bool, pick: bool) returns (q: State)
    requires !s.crashed && s.owner.Free? && t < |s.threads| && s.threads[t] == if b then PopLock else TryLock
    ensures q == Step(s, ThreadStep(t, pick)) && Inside(q, t, if b then PopCheck else TryCheck)
    ensures q == s.(threads := s.threads[t := if b then PopCheck else TryCheck], owner := Thread(t))
  {
    q := s.(threads := s.threads[t := if b then PopCheck else TryCheck], owner := Thread(t));
  }

  /** What a thread has done since it locked, it has done since before. */
  lemma ReturnedSince(s: State, q: State, r: State, t: nat, f: Effect, res: Result, items: seq<Item>)
    requires t < |s.threads| && q == s.(threads := q.threads, owner := q.owner)
    requires |q.threads| == |s.threads| && q.threads == s.threads[t := q.threads[t]] && Returned(q, r, t, f, res, items)
    ensures Returned(s, r, t, f, res, items)
  {
    assert q.threads[t := Idle] == s.threads[t := Idle];
  }

  lemma TryPopReaches(s: State, t: nat, pick: bool) returns (r: State)
    requires !s.crashed && s.owner.Free? && t < |s.threads| && s.threads[t] == TryLock
    ensures Reaches(s, ThreadStep(t, pick), r)
    ensures Returned(s, r, t, PopEffect(s.items), PopResult(s.items), if s.items == [] then [] else Pop(s.items))
  {
    var q := LockStep(s, t, false, pick);
    if s.items == [] {
      r := TryPopEmpty(q, t, pick);
      ReturnedSince(s, q, r, t, FoundEmpty, Nothing, []);
    } else {
      r := CheckTakes(q, t, false, pick);
      ReturnedSince(s, q, r, t, Dequeue(s.items[0]), Got(s.items[0]), Pop(s.items));
    }
    ReachesNext(s, ThreadStep(t, pick), r);
  }

  lemma PopReaches(s: State, t: nat, pick: bool) returns (r: State)
    requires !s.crashed && s.owner.Free? && t < |s.threads| && s.threads[t] == PopLock && s.items != []
    ensures Reaches(s, ThreadStep(t, pick), r)
    ensures Returned(s, r, t, Dequeue(s.items[0]), Got(s.items[0]), Pop(s.items))
  {
    var q := LockStep(s, t, true, pick);
    r := CheckTakes(q, t, true, pick);
    ReturnedSince(s, q, r, t, Dequeue(s.items[0]), Got(s.items[0]), Pop(s.items));
    ReachesNext(s, ThreadStep(t, pick), r);
  }

  /** A blocked Pop whose helper has closed its channel, with items in the slice. */
  lemma WokenReaches(s: State, t: nat, h: nat) returns (r: State)
    requires !s.crashed && s.owner.Free? && t < |s.threads| && s.threads[t] == PopSelect(h) && s.items != []
    requires h < |s.helpers| && s.helpers[h] == HDone
    ensures Reaches(s, ThreadStep(t, false), r)
    ensures Returned(s, r, t, Dequeue(s.items[0]), Got(s.items[0]), Pop(s.items))
  {
    var a := ThreadStep(t, false);
    var s1 := s.(threads := s.threads[t := PopRelock]);
    assert Step(s, a) == s1;
    var s2 := s.(threads := s.threads[t := PopCheck], owner := Thread(t));
    assert s1.threads[t := PopCheck] == s2.threads;
    assert Step(s1, a) == s2;
    r := CheckTakes(s2, t, true, false);
    ReturnedSince(s, s2, r, t, Dequeue(s.items[0]), Got(s.items[0]), Pop(s.items));
    ReachesNext(s1, a, r);
    ReachesNext(s, a, r);
  }

  // ---------------------------------------------------------------- giving up

  lemma {:induction false} BroadcastCommits(s: State)
    ensures Commits(Broadcast(s).history) == Commits(s.history)
    decreases |s.waiters|
  {
    if s.waiters != [] {
      SignalQuiet(s);
      BroadcastCommits(Signal(s));
    }
  }

  lemma BroadcastAndLeave(s: State, t: nat) returns (q: State)
    requires Inside(s, t, PopBroadcast)
    ensures q == Step(s, ThreadStep(t, true)) && Inside(q, t, Leave(Nothing, true))
    ensures q.threads == s.threads[t := Leave(Nothing, true)]
    ensures q.items == s.items && q.helpers == s.helpers && q.closed == s.closed
    ensures Commits(q.history) == Commits(s.history) + [(t, GaveUp)]
  {
    var placed := s.(threads := s.threads[t := Leave(Nothing, true)]);
    q := Log(Broadcast(placed), Commit(t, GaveUp));
    QueueSafety.BroadcastWakes(placed);
    BroadcastCommits(placed);
    assert Step(s, ThreadStep(t, true)) == q;
  }

  /** A blocked Pop whose select sees the closed channel returns false in four steps of its own. */
  lemma GiveUpReaches(s: State, t: nat, h: nat)
    requires !s.crashed && s.owner.Free? && s.closed && t < |s.threads| && s.threads[t] == PopSelect(h)
    ensures Returned(s, Run(s, Repeat(ThreadStep(t, true), 4)), t, GaveUp, Nothing, s.items)
  {
    var a := ThreadStep(t, true);
    var s2 := SeesDone(s, t, h);
    var s3 := BroadcastAndLeave(s2, t);
    var s4 := LeaveReaches(s3, t, Nothing, true, true);
    LeaveStep(s3, t, s4);
    RunFour(s, a);
    assert Returned(s2, s4, t, GaveUp, Nothing, s.items) by {
      assert s4.threads == s2.threads[t := Idle];
    }
    ReturnedSince(s, s2, s4, t, GaveUp, Nothing, s.items);
  }

  lemma SeesDone(s: State, t: nat, h: nat) returns (q: State)
    requires !s.crashed && s.owner.Free? && s.closed && t < |s.threads| && s.threads[t] == PopSelect(h)
    ensures var a := ThreadStep(t, true); q == Step(Step(s, a), a)
    ensures q == s.(threads := s.threads[t := PopBroadcast], owner := Thread(t)) && Inside(q, t, PopBroadcast)
  {
    var s1 := s.(threads := s.threads[t := PopDoneLock]);
    assert Step(s, ThreadStep(t, true)) == s1;
    q := s.(threads := s.threads[t := PopBroadcast], owner := Thread(t));
    assert s1.threads[t := PopBroadcast] == q.threads;
  }

  lemma LeaveStep(s: State, t: nat, r: State)
    requires Inside(s, t, Leave(Nothing, true))
    requires r == Log(s.(threads := s.threads[t := Idle], owner := Free), Return(t, Nothing))
    ensures Step(s, ThreadStep(t, true)) == r
  {
  }

  lemma RunFour(s: State, a: Action)
    ensures Run(s, Repeat(a, 4)) == Step(Step(Step(Step(s, a), a), a), a)
  {
    RunRepeat(s, a, 3);
    RunRepeat(Step(s, a), a, 2);
    RunRepeat(Step(Step(s, a), a), a, 1);
    RunRepeat(Step(Step(Step(s, a), a), a), a, 0);
  }

  lemma RunRepeat(s: State, a: Action, n: nat)
    ensures Run(s, Repeat(a, n + 1)) == Run(Step(s, a), Repeat(a, n))
  {
    assert Repeat(a, n + 1)[1..] == Repeat(a, n);
  }

  // ---------------------------------------------------------------- theorems

  /** Thread `t` comes to return by its own steps, with this effect, this result and this slice. */
  ghost predicate ComesToReturn(s: State, from: State, t: nat, pick: bool, f: Effect, res: Result, items: seq<Item>)
    requires t < |s.threads|
  {
    exists r :: Reaches(from, ThreadStep(t, pick), r) && Returned(s, r, t, f, res, items)
  }

  /** In every reachable state with a free mutex an idle thread that pushes comes to return. */
  lemma PushReturns(n: nat, acts: seq<Action>, t: nat, x: Item, pick: bool)
    requires var s := Run(Init(n), acts); t < |s.threads| && s.threads[t] == Idle && s.owner.Free?
    ensures var s := Run(Init(n), acts);
      ComesToReturn(s, Step(s, Call(t, OpPush(x))), t, pick, Enqueue(x), NoResult, Push(s.items, x))
  {
    QueueSafety.Reachable(n, acts);
    var s := Run(Init(n), acts);
    CallStep(s, t, OpPush(x));
    var r := PushReaches(Called(s, t, OpPush(x)), t, x, pick);
    ReturnedSinceCall(s, t, OpPush(x), r, Enqueue(x), NoResult, Push(s.items, x));
  }

  /** So does one that calls TryPop: with the root, or with nothing if there is none. */
  lemma TryPopReturns(n: nat, acts: seq<Action>, t: nat, pick: bool)
    requires var s := Run(Init(n), acts); t < |s.threads| && s.threads[t] == Idle && s.owner.Free?
    ensures var s := Run(Init(n), acts); var q := Step(s, Call(t, OpTryPop));
      if s.items == [] then ComesToReturn(s, q, t, pick, FoundEmpty, Nothing, [])
      else ComesToReturn(s, q, t, pick, Dequeue(s.items[0]), Got(s.items[0]), Pop(s.items))
  {
    QueueSafety.Reachable(n, acts);
    var s := Run(Init(n), acts);
    CallStep(s, t, OpTryPop);
    var r := TryPopReaches(Called(s, t, OpTryPop), t, pick);
    var rest := if s.items == [] then [] else Pop(s.items);
    ReturnedSinceCall(s, t, OpTryPop, r, PopEffect(s.items), PopResult(s.items), rest);
  }

  /** So does one that calls Pop while there are items. */
  lemma PopReturns(n: nat, acts: seq<Action>, t: nat, pick: bool)
    requires var s := Run(Init(n), acts); t < |s.threads| && s.threads[t] == Idle && s.owner.Free? && s.items != []
    ensures var s := Run(Init(n), acts);
      ComesToReturn(s, Step(s, Call(t, OpPop)), t, pick, Dequeue(s.items[0]), Got(s.items[0]), Pop(s.items))
  {
    QueueSafety.Reachable(n, acts);
    var s := Run(Init(n), acts);
    CallStep(s, t, OpPop);
    var r := PopReaches(Called(s, t, OpPop), t, pick);
    ReturnedSinceCall(s, t, OpPop, r, Dequeue(s.items[0]), Got(s.items[0]), Pop(s.items));
  }

  /** And a waiting Pop whose done channel is closed returns false within four of its own steps. */
  lemma PopGivesUp(n: nat, acts: seq<Action>, t: nat, h: nat)
    requires var s := Run(Init(n), acts);
      t < |s.threads| && s.threads[t] == PopSelect(h) && s.owner.Free? && s.closed
    ensures var s := Run(Init(n), acts);
      Returned(s, Run(s, Repeat(ThreadStep(t, true), 4)), t, GaveUp, Nothing, s.items)
  {
    QueueSafety.Reachable(n, acts);
    GiveUpReaches(Run(Init(n), acts), t, h);
  }
}
