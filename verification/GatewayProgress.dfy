/** What the gateway's goroutines come to do by their own steps, once the queue's mutex is free. */
module GatewayProgress {
  import opened PriorityOrder
  import opened GatewayThreads
  import Q = QueueProtocol
  import P = QueueProgress
  import QueueSafety
  import QueueTheorems
  import QueueWaking
  import Heap
  import Drainer

  function Again(a: Action, n: nat): seq<Action> {
    if n == 0 then [] else [a] + Again(a, n - 1)
  }

  /** Nothing but `a`, often enough, leads from `g` to `r`. */
  ghost predicate Comes(g: Gateway, a: Action, r: Gateway) {
    exists n: nat :: Run(g, Again(a, n)) == r
  }

  lemma ComesSelf(g: Gateway, a: Action)
    ensures Comes(g, a, g)
  {
    assert Run(g, Again(a, 0)) == g;
  }

  lemma ComesNext(g: Gateway, a: Action, r: Gateway)
    requires Comes(Step(g, a), a, r)
    ensures Comes(g, a, r)
  {
    var n: nat :| Run(Step(g, a), Again(a, n)) == r;
    assert Again(a, n + 1)[1..] == Again(a, n);
    assert Run(g, Again(a, n + 1)) == r;
  }

  lemma {:induction false} ComesAfter(g: Gateway, a: Action, n: nat, r: Gateway)
    requires Comes(Run(g, Again(a, n)), a, r)
    ensures Comes(g, a, r)
    decreases n
  {
    if n > 0 {
      assert Again(a, n)[1..] == Again(a, n - 1);
      ComesAfter(Step(g, a), a, n - 1, r);
      ComesNext(g, a, r);
    }
  }

  lemma ComesOn(g: Gateway, a: Action, q: Gateway, r: Gateway)
    requires Comes(g, a, q) && Comes(q, a, r)
    ensures Comes(g, a, r)
  {
    var n: nat :| Run(g, Again(a, n)) == q;
    ComesAfter(g, a, n, r);
  }

  // ---------------------------------------------------------------- arrivals are commits

  function Enqueues(cs: seq<(nat, Q.Effect)>): seq<Item> {
    if cs == [] then []
    else
      var last := cs[|cs| - 1];
      Enqueues(cs[..|cs| - 1]) + if last.0 != 0 && last.1.Enqueue? then [last.1.item] else []
  }

  lemma EnqueuesSnoc(cs: seq<(nat, Q.Effect)>, t: nat, f: Q.Effect)
    ensures Enqueues(cs + [(t, f)]) == Enqueues(cs) + if t != 0 && f.Enqueue? then [f.item] else []
  {
    assert (cs + [(t, f)])[..|cs|] == cs;
  }

  lemma {:induction false} ArrivedIsEnqueues(h: Q.Trace)
    ensures Arrived(h) == Enqueues(P.Commits(h))
  {
    match h
    case Start =>
    case Then(past, e) =>
      ArrivedIsEnqueues(past);
      if e.Commit? {
        EnqueuesSnoc(P.Commits(past), e.t, e.effect);
      } else {
        assert P.Commits(past) + [] == P.Commits(past);
      }
  }

  lemma ReturnedArrives(s: Q.State, r: Q.State, t: nat, f: Q.Effect, res: Q.Result, items: seq<Item>)
    requires t < |s.threads| && P.Returned(s, r, t, f, res, items)
    ensures Arrived(r.history) == Arrived(s.history) + if t != 0 && f.Enqueue? then [f.item] else []
  {
    ArrivedIsEnqueues(s.history);
    ArrivedIsEnqueues(r.history);
    EnqueuesSnoc(P.Commits(s.history), t, f);
  }

  // ---------------------------------------------------------------- request handlers

  lemma {:induction false} HandlerLift(g: Gateway, t: nat, n: nat)
    requires t > 0
    ensures Run(g, Again(HandlerStep(t), n)) == g.(q := Q.Run(g.q, P.Repeat(Q.ThreadStep(t, false), n)))
    decreases n
  {
    if n > 0 {
      var a, b := HandlerStep(t), Q.ThreadStep(t, false);
      assert Again(a, n)[1..] == Again(a, n - 1) && P.Repeat(b, n)[1..] == P.Repeat(b, n - 1);
      HandlerLift(Step(g, a), t, n - 1);
    }
  }

  /** In its call and two steps a handler locks and has its item at the end of the slice. */
  lemma HandlerAppends(g: Gateway, t: nat, x: Item)
    requires Ok(g) && g.q.owner.Free? && 0 < t < |g.q.threads| && g.q.threads[t] == Q.Idle
    ensures var r := Step(Step(Step(g, Handler(t, x)), HandlerStep(t)), HandlerStep(t));
      && Arrived(r.q.history) == Arrived(g.q.history) + [x]
      && r.q.items == g.q.items + [x]
      && r.q.threads == g.q.threads[t := Q.PushSift(x, |g.q.items|)]
  {
    var s3 := AppendSteps(g.q, t, x);
  }

  lemma AppendSteps(s: Q.State, t: nat, x: Item) returns (r: Q.State)
    requires !s.crashed && s.owner.Free? && t < |s.threads| && s.threads[t] == Q.Idle
    ensures var a := Q.ThreadStep(t, false); r == Q.Step(Q.Step(Q.Step(s, Q.Call(t, Q.OpPush(x))), a), a)
    ensures r.items == s.items + [x] && r.threads == s.threads[t := Q.PushSift(x, |s.items|)]
    ensures r.history == Q.Then(Q.Then(s.history, Q.Invoke(t, Q.OpPush(x))), Q.Commit(t, Q.Enqueue(x)))
  {
    P.CallStep(s, t, Q.OpPush(x));
    var s1 := P.Called(s, t, Q.OpPush(x));
    var s2 := s1.(threads := s1.threads[t := Q.PushAppend(x)], owner := Q.Thread(t));
    assert Q.Step(s1, Q.ThreadStep(t, false)) == s2;
    r := Q.Step(s2, Q.ThreadStep(t, false));
    assert r.threads == s.threads[t := Q.PushSift(x, |s.items|)];
  }

  /**
   * Whenever the mutex is free an idle handler can push: by its own steps it comes to return, and then
   * its item has arrived and is in the slice.
   */
  lemma HandlerReturns(g: Gateway, t: nat, x: Item)
    requires Ok(g) && g.q.owner.Free? && 0 < t < |g.q.threads| && g.q.threads[t] == Q.Idle
    ensures exists n: nat :: HandlerDone(g, Run(Step(g, Handler(t, x)), Again(HandlerStep(t), n)), t, x)
  {
    P.CallStep(g.q, t, Q.OpPush(x));
    var s := P.Called(g.q, t, Q.OpPush(x));
    var r := P.PushReaches(s, t, x, false);
    assert r.threads == g.q.threads[t := Q.Idle];
    assert P.Commits(s.history) == P.Commits(g.q.history);
    assert P.Returned(g.q, r, t, Q.Enqueue(x), Q.NoResult, Heap.Push(g.q.items, x));
    var n: nat :| Q.Run(s, P.Repeat(Q.ThreadStep(t, false), n)) == r;
    HandlerLift(Step(g, Handler(t, x)), t, n);
    ReturnedArrives(g.q, r, t, Q.Enqueue(x), Q.NoResult, Heap.Push(g.q.items, x));
    assert HandlerDone(g, Run(Step(g, Handler(t, x)), Again(HandlerStep(t), n)), t, x);
  }

  ghost predicate HandlerDone(g: Gateway, r: Gateway, t: nat, x: Item)
    requires t < |g.q.threads|
  {
    && P.Returned(g.q, r.q, t, Q.Enqueue(x), Q.NoResult, Heap.Push(g.q.items, x))
    && Arrived(r.q.history) == Arrived(g.q.history) + [x]
    && r.loop == g.loop && r.published == g.published
  }

  // ---------------------------------------------------------------- the calls of the drain loop

  /** A move of a thread inside Pop stays inside, or is the return. */
  lemma BlockingMove(s: Q.State, pick: bool)
    requires |s.threads| > 0 && InBlockingPop(s.threads[0])
    ensures var pc, m := s.threads[0], Q.ThreadMove(s, 0, pick);
      m.Go? && !InBlockingPop(m.pc) ==> m.pc == Q.Idle && pc.Leave? && m.note == Q.Note(Q.Return(0, pc.result))
  {
  }

  /** A move either changes nothing about the threads, or is taken and noted. */
  lemma ApplyTakes(s: Q.State, t: nat, m: Q.Move)
    requires t < |s.threads|
    ensures var r := Q.Apply(s, t, m);
      || r.threads == s.threads
      || (m.Go? && r.threads == s.threads[t := m.pc]
        && (m.note.Note? ==> r.history.Then? && r.history.last == m.note.event))
  {
    if QueueSafety.Enabled(s, m) {
      QueueSafety.AwakenWakes(Q.Place(s, t, m, QueueSafety.OwnerAfter(s, t, m)), m.wake);
    }
  }

  /** A step of thread 0 inside Pop stays inside, or is the return, whose result is the last event. */
  lemma BlockingStep(s: Q.State, pick: bool)
    requires |s.threads| > 0 && InBlockingPop(s.threads[0])
    ensures var r := Q.Step(s, Q.ThreadStep(0, pick));
      && |r.threads| == |s.threads|
      && (r.threads[0] != Q.Idle ==> InBlockingPop(r.threads[0]))
      && (r.threads[0] == Q.Idle ==>
        s.threads[0].Leave? && r.history.Then? && r.history.last == Q.Return(0, s.threads[0].result))
  {
    if !s.crashed {
      BlockingMove(s, pick);
      ApplyTakes(s, 0, Q.ThreadMove(s, 0, pick));
    }
  }

  lemma PushingStep(s: Q.State, pick: bool)
    requires |s.threads| > 0
    ensures |Q.Step(s, Q.ThreadStep(0, pick)).threads| == |s.threads|
  {
    QueueTheorems.StepKeepsThreads(s, Q.ThreadStep(0, pick));
  }

  lemma {:induction false} IdleStays(s: Q.State, pick: bool, n: nat)
    requires |s.threads| > 0 && s.threads[0] == Q.Idle
    ensures Q.Run(s, P.Repeat(Q.ThreadStep(0, pick), n)) == s
  {
    var a := Q.ThreadStep(0, pick);
    if n > 0 {
      assert P.Repeat(a, n)[1..] == P.Repeat(a, n - 1);
      assert Q.Step(s, a) == s;
      IdleStays(s, pick, n - 1);
    }
  }

  /** Where the loop goes on when its call has returned. */
  function GoesOn(loop: Loop, res: Q.Result): Loop {
    if loop.InPush? then AtLoop else if res.Got? then Publishing(res.item) else Ended
  }

  ghost predicate InCall(g: Gateway) {
    && |g.q.threads| > 0 && g.q.threads[0] != Q.Idle
    && (g.loop.InPush? || (g.loop.InPop? && InBlockingPop(g.q.threads[0])))
  }

  lemma DrainStep(g: Gateway, pick: bool, reply: Drainer.Reply)
    requires InCall(g)
    ensures var r, s := Step(g, Drain(pick, reply)), Q.Step(g.q, Q.ThreadStep(0, pick));
      && r.q == s && r.published == g.published && |s.threads| > 0
      && (s.threads[0] != Q.Idle ==> InCall(r) && r.loop == g.loop)
      && (s.threads[0] == Q.Idle && g.loop.InPush? ==> r.loop == AtLoop)
      && (s.threads[0] == Q.Idle && g.loop.InPop? ==>
        s.history.Then? && s.history.last.Return? && r.loop == GoesOn(g.loop, s.history.last.result))
  {
    PushingStep(g.q, pick);
    if g.loop.InPop? {
      BlockingStep(g.q, pick);
    }
  }

  /** The call of `g` has returned in the queue's state `f`, and the loop has gone on to `r`. */
  ghost predicate Landed(g: Gateway, f: Q.State, r: Gateway) {
    && r.q == f && r.published == g.published
    && (g.loop.InPush? ==> r.loop == AtLoop)
    && (g.loop.InPop? ==>
      f.history.Then? && f.history.last.Return? && r.loop == GoesOn(g.loop, f.history.last.result))
  }

  /** Thread 0 gets from `s` to its return in `f`. */
  ghost predicate Returns(s: Q.State, pick: bool, n: nat, f: Q.State) {
    f == Q.Run(s, P.Repeat(Q.ThreadStep(0, pick), n)) && |f.threads| > 0 && f.threads[0] == Q.Idle
  }

  /** The step at which the call returns. */
  lemma DrainLast(g: Gateway, pick: bool, reply: Drainer.Reply, n: nat, f: Q.State) returns (r: Gateway)
    requires InCall(g) && n > 0 && Returns(g.q, pick, n, f)
    requires var s := Q.Step(g.q, Q.ThreadStep(0, pick)); |s.threads| > 0 && s.threads[0] == Q.Idle
    ensures Comes(g, Drain(pick, reply), r) && Landed(g, f, r)
  {
    DrainStep(g, pick, reply);
    P.RunRepeat(g.q, Q.ThreadStep(0, pick), n - 1);
    r := Step(g, Drain(pick, reply));
    IdleStays(r.q, pick, n - 1);
    ComesSelf(r, Drain(pick, reply));
    ComesNext(g, Drain(pick, reply), r);
  }

  /** A step before that. */
  lemma DrainOn(g: Gateway, pick: bool, reply: Drainer.Reply, n: nat, f: Q.State) returns (q: Gateway)
    requires InCall(g) && n > 0 && Returns(g.q, pick, n, f)
    requires var s := Q.Step(g.q, Q.ThreadStep(0, pick)); |s.threads| > 0 ==> s.threads[0] != Q.Idle
    ensures q == Step(g, Drain(pick, reply)) && q.loop == g.loop && q.published == g.published
    ensures InCall(q) && Returns(q.q, pick, n - 1, f)
  {
    DrainStep(g, pick, reply);
    P.RunRepeat(g.q, Q.ThreadStep(0, pick), n - 1);
    q := Step(g, Drain(pick, reply));
  }

  lemma NotYet(g: Gateway, pick: bool, n: nat, f: Q.State)
    requires InCall(g) && Returns(g.q, pick, n, f)
    ensures n > 0
  {
  }

  lemma LandedFrom(g: Gateway, q: Gateway, f: Q.State, r: Gateway)
    requires Landed(q, f, r) && q.loop == g.loop && q.published == g.published
    ensures Landed(g, f, r)
  {
  }

  lemma DrainOnce(g: Gateway, pick: bool, reply: Drainer.Reply, n: nat, f: Q.State) returns (q: Gateway, done: bool)
    requires InCall(g) && Returns(g.q, pick, n, f)
    ensures done ==> Comes(g, Drain(pick, reply), q) && Landed(g, f, q)
    ensures !done ==> n > 0 && InCall(q) && Returns(q.q, pick, n - 1, f)
    ensures !done ==> forall r :: Comes(q, Drain(pick, reply), r) ==> Comes(g, Drain(pick, reply), r)
    ensures !done ==> q.loop == g.loop && q.published == g.published
  {
    NotYet(g, pick, n, f);
    var s := Q.Step(g.q, Q.ThreadStep(0, pick));
    done := |s.threads| > 0 && s.threads[0] == Q.Idle;
    if done {
      q := DrainLast(g, pick, reply, n, f);
    } else {
      q := DrainOn(g, pick, reply, n, f);
      forall r | Comes(q, Drain(pick, reply), r)
        ensures Comes(g, Drain(pick, reply), r)
      {
        ComesNext(g, Drain(pick, reply), r);
      }
    }
  }

  /** The loop takes its thread's steps one by one until its call has returned, and then goes on. */
  lemma {:induction false} DrainLift(g: Gateway, pick: bool, reply: Drainer.Reply, n: nat, f: Q.State) returns (r: Gateway)
    requires InCall(g) && Returns(g.q, pick, n, f)
    ensures Comes(g, Drain(pick, reply), r) && Landed(g, f, r)
    decreases n
  {
    var q, done := DrainOnce(g, pick, reply, n, f);
    if done {
      r := q;
    } else {
      r := DrainLift(q, pick, reply, n - 1, f);
      LandedFrom(g, q, f, r);
    }
  }

  /** A call that is sure to return does so for the loop. */
  lemma CallReturns(g: Gateway, pick: bool, reply: Drainer.Reply, s: Q.State, r: Q.State,
    f: Q.Effect, res: Q.Result, items: seq<Item>) returns (e: Gateway)
    requires InCall(g) && |s.threads| > 0 && P.Returned(s, r, 0, f, res, items)
    requires P.Reaches(g.q, Q.ThreadStep(0, pick), r)
    ensures Comes(g, Drain(pick, reply), e) && e.q == r && e.published == g.published
    ensures e.loop == GoesOn(g.loop, res)
  {
    var n: nat :| Q.Run(g.q, P.Repeat(Q.ThreadStep(0, pick), n)) == r;
    e := DrainLift(g, pick, reply, n, r);
  }

  /** The loop stands outside its calls, the mutex is free, and nothing has gone wrong. */
  ghost predicate Stands(g: Gateway, loop: Loop) {
    g.loop == loop && |g.q.threads| > 0 && g.q.threads[0] == Q.Idle && g.q.owner.Free? && !g.q.crashed
  }

  /** The loop comes to here, and meanwhile its thread has taken this effect and nothing else has happened. */
  ghost predicate LoopDone(g: Gateway, r: Gateway, loop: Loop, f: Q.Effect, res: Q.Result, items: seq<Item>)
    requires |g.q.threads| > 0
  {
    && r.loop == loop && r.published == g.published
    && P.Returned(g.q, r.q, 0, f, res, items) && Arrived(r.q.history) == Arrived(g.q.history)
  }

  /** With items in the slice the loop comes to hold the root. */
  lemma LoopPops(g: Gateway, pick: bool, reply: Drainer.Reply) returns (r: Gateway)
    requires Stands(g, AtLoop) && g.q.items != []
    ensures Comes(g, Drain(pick, reply), r)
    ensures var x := g.q.items[0]; LoopDone(g, r, Publishing(x), Q.Dequeue(x), Q.Got(x), Heap.Pop(g.q.items))
  {
    var x, l := g.q.items[0], Heap.Pop(g.q.items);
    P.CallStep(g.q, 0, Q.OpPop);
    var q := Step(g, Drain(pick, reply));
    assert q == Gateway(P.Called(g.q, 0, Q.OpPop), InPop, g.published);
    var s := P.PopReaches(q.q, 0, pick);
    r := CallReturns(q, pick, reply, q.q, s, Q.Dequeue(x), Q.Got(x), l);
    P.ReturnedSinceCall(g.q, 0, Q.OpPop, s, Q.Dequeue(x), Q.Got(x), l);
    ReturnedArrives(g.q, s, 0, Q.Dequeue(x), Q.Got(x), l);
    ComesNext(g, Drain(pick, reply), r);
  }

  /** A failed item is at the end of the slice after three steps of the loop. */
  lemma LoopAppends(g: Gateway, x: Item, pick: bool, reply: Drainer.Reply)
    requires Stands(g, Requeueing(x))
    ensures var a := Drain(pick, reply); var r := Step(Step(Step(g, a), a), a);
      r.q.items == g.q.items + [x] && r.loop == InPush(x) && r.published == g.published
  {
    P.CallStep(g.q, 0, Q.OpPush(x));
    var a := Drain(pick, reply);
    var g1 := Step(g, a);
    assert g1 == Gateway(P.Called(g.q, 0, Q.OpPush(x)), InPush(x), g.published);
    var s2 := g1.q.(threads := g1.q.threads[0 := Q.PushAppend(x)], owner := Q.Thread(0));
    assert Q.Step(g1.q, Q.ThreadStep(0, pick)) == s2;
    assert Step(g1, a) == Gateway(s2, InPush(x), g.published);
  }

  /** And then the loop comes back to its start. */
  lemma LoopRequeues(g: Gateway, x: Item, pick: bool, reply: Drainer.Reply) returns (r: Gateway)
    requires Stands(g, Requeueing(x))
    ensures Comes(g, Drain(pick, reply), r)
    ensures LoopDone(g, r, AtLoop, Q.Enqueue(x), Q.NoResult, Heap.Push(g.q.items, x))
  {
    var l := Heap.Push(g.q.items, x);
    P.CallStep(g.q, 0, Q.OpPush(x));
    var q := Step(g, Drain(pick, reply));
    assert q == Gateway(P.Called(g.q, 0, Q.OpPush(x)), InPush(x), g.published);
    var s := P.PushReaches(q.q, 0, x, pick);
    r := CallReturns(q, pick, reply, q.q, s, Q.Enqueue(x), Q.NoResult, l);
    P.ReturnedSinceCall(g.q, 0, Q.OpPush(x), s, Q.Enqueue(x), Q.NoResult, l);
    ReturnedArrives(g.q, s, 0, Q.Enqueue(x), Q.NoResult, l);
    ComesNext(g, Drain(pick, reply), r);
  }

  /** A failed publish: the item is back in the slice and the loop at its start, by its own steps. */
  lemma FailedComesBack(g: Gateway, x: Item, pick: bool, reply: Drainer.Reply) returns (r: Gateway)
    requires Stands(g, Publishing(x)) && !reply.Accepted?
    ensures Comes(g, Drain(pick, reply), r)
    ensures LoopDone(g, r, AtLoop, Q.Enqueue(x), Q.NoResult, Heap.Push(g.q.items, x))
  {
    var q := Step(g, Drain(pick, reply));
    assert q == g.(loop := Requeueing(x));
    r := LoopRequeues(q, x, pick, reply);
    ComesNext(g, Drain(pick, reply), r);
  }

  /** Waiting in its Pop with the done channel closed, the loop comes to its end. */
  lemma LoopEnds(g: Gateway, h: nat, reply: Drainer.Reply) returns (r: Gateway)
    requires Ok(g) && g.loop.InPop? && g.q.threads[0] == Q.PopSelect(h) && g.q.closed && g.q.owner.Free?
    ensures Comes(g, Drain(true, reply), r)
    ensures LoopDone(g, r, Ended, Q.GaveUp, Q.Nothing, g.q.items)
  {
    P.GiveUpReaches(g.q, 0, h);
    var s := Q.Run(g.q, P.Repeat(Q.ThreadStep(0, true), 4));
    r := CallReturns(g, true, reply, g.q, s, Q.GaveUp, Q.Nothing, g.q.items);
    ReturnedArrives(g.q, s, 0, Q.GaveUp, Q.Nothing, g.q.items);
  }

  // ---------------------------------------------------------------- the helper of a waiting loop

  lemma {:induction false} HelperLift(g: Gateway, h: nat, n: nat)
    ensures Run(g, Again(HelperGo(h), n)) == g.(q := Q.Run(g.q, P.Repeat(Q.HelperStep(h), n)))
    decreases n
  {
    if n > 0 {
      var a, b := HelperGo(h), Q.HelperStep(h);
      assert Again(a, n)[1..] == Again(a, n - 1) && P.Repeat(b, n)[1..] == P.Repeat(b, n - 1);
      HelperLift(Step(g, a), h, n - 1);
    }
  }

  lemma ClosingIsRepeat(h: nat)
    ensures QueueWaking.Closing(h) == P.Repeat(Q.HelperStep(h), 4)
  {
    var b := Q.HelperStep(h);
    assert P.Repeat(b, 2) == [b] + P.Repeat(b, 1) && P.Repeat(b, 1) == [b] + P.Repeat(b, 0);
    assert P.Repeat(b, 3) == [b] + P.Repeat(b, 2) && P.Repeat(b, 2) == [b, b];
    assert P.Repeat(b, 3) == QueueTheorems.Three(b);
  }

  lemma HelperKeepsHistory(s: Q.State, h: nat)
    ensures Arrived(Q.Step(s, Q.HelperStep(h)).history) == Arrived(s.history)
  {
    if h < |s.helpers| && !s.crashed {
      HelperSameArrivals(s, h);
    }
  }

  lemma {:induction false} HelpersKeepHistory(s: Q.State, h: nat, n: nat)
    ensures Arrived(Q.Run(s, P.Repeat(Q.HelperStep(h), n)).history) == Arrived(s.history)
    decreases n
  {
    if n > 0 {
      var b := Q.HelperStep(h);
      assert P.Repeat(b, n)[1..] == P.Repeat(b, n - 1);
      HelperKeepsHistory(s, h);
      HelpersKeepHistory(Q.Step(s, b), h, n - 1);
    }
  }

  /**
   * Waiting in its Pop with items there, the loop comes to hold the root once its helper has been
   * notified: four steps of the helper, and then its own.
   */
  lemma NotifiedLoopPops(g: Gateway, h: nat, reply: Drainer.Reply) returns (r: Gateway)
    requires Ok(g) && g.loop.InPop? && g.q.threads[0] == Q.PopSelect(h)
    requires g.q.owner.Free? && g.q.items != [] && QueueWaking.WasNotified(g.q, h)
    ensures Comes(Run(g, Again(HelperGo(h), 4)), Drain(false, reply), r)
    ensures r.loop == Publishing(g.q.items[0]) && r.q.items == Heap.Pop(g.q.items)
    ensures r.published == g.published && Arrived(r.q.history) == Arrived(g.q.history)
  {
    var x, l := g.q.items[0], Heap.Pop(g.q.items);
    var s := HelperDone(g.q, h);
    HelperLift(g, h, 4);
    HelpersKeepHistory(g.q, h, 4);
    var q := Run(g, Again(HelperGo(h), 4));
    assert q == g.(q := s);
    var e := P.WokenReaches(s, 0, h);
    r := CallReturns(q, false, reply, s, e, Q.Dequeue(x), Q.Got(x), l);
    ReturnedArrives(s, e, 0, Q.Dequeue(x), Q.Got(x), l);
  }

  lemma HelperDone(s: Q.State, h: nat) returns (r: Q.State)
    requires Q.Inv(s) && s.owner.Free? && |s.threads| > 0 && s.threads[0] == Q.PopSelect(h)
    requires QueueWaking.WasNotified(s, h)
    ensures r == Q.Run(s, P.Repeat(Q.HelperStep(h), 4))
    ensures QueueWaking.Woken(r, s.items, Q.Free, 0, Q.PopSelect(h), h, Q.HDone)
  {
    assert h < |s.helpers| && Q.NapOk(s.helpers[h], h in s.waiters, Q.NapIn(s.history, h));
    assert !Q.HelperHolds(s.helpers[h]);
    QueueWaking.HelperCloses(s, s.items, 0, Q.PopSelect(h), h, s.helpers[h]);
    ClosingIsRepeat(h);
    r := Q.Run(s, P.Repeat(Q.HelperStep(h), 4));
  }
}
