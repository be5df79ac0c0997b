/** `drainQueue` as the loop that it is, run against a script of what its environment does. */
module DrainLoop {
  import opened Sequences
  import opened PriorityOrder
  import opened PriorityQueue
  import opened Drainer
  import Heap
  import HeapRuns

  /**
   * What happens around one emptiness check: arrivals before it, arrivals until Pop returns or the
   * wait ends, whether a wait ends because the context is cancelled, the broker's reply, and
   * arrivals while the loop handles a failure.
   */
  datatype Turn = Turn(before: seq<Item>, during: seq<Item>, cancelled: bool, reply: Reply, late: seq<Item>)

  function Wait(t: Turn): seq<Event> {
    ArriveAll(t.before) + [Check] + ArriveAll(t.during) + (if t.cancelled then [CloseDone, Stop] else [Wake])
  }

  function Handle(t: Turn): seq<Event> {
    [Publish(t.reply)] + ArriveAll(t.late) + [Requeue]
  }

  function Script(ts: seq<Turn>): seq<Event> {
    if ts == [] then []
    else
      var last := ts[|ts| - 1];
      Script(ts[..|ts| - 1]) + (Wait(last) + Handle(last))
  }

  lemma {:induction false} ScriptPrefix(ts: seq<Turn>, i: nat)
    requires i <= |ts|
    ensures Script(ts[..i]) <= Script(ts)
    ensures i < |ts| ==> Script(ts[..i]) + (Wait(ts[i]) + Handle(ts[i])) == Script(ts[..i + 1])
    ensures i < |ts| ==> Script(ts[..i + 1]) <= Script(ts)
  {
    if i < |ts| {
      assert ts[..i + 1][..i] == ts[..i];
      var front := ts[..|ts| - 1];
      if i + 1 < |ts| {
        ScriptPrefix(front, i + 1);
        assert front[..i + 1] == ts[..i + 1];
      } else {
        assert ts[..i + 1] == ts;
      }
    } else {
      assert ts[..i] == ts;
    }
  }

  /** The events of one turn, of which a return cuts off the handling of the reply. */
  ghost predicate TurnTrace(t: Turn, es: seq<Event>, stopped: bool) {
    es == if stopped then Wait(t) else Wait(t) + Handle(t)
  }

  lemma NextTurn(ts: seq<Turn>, i: nat, es: seq<Event>, stopped: bool)
    requires i < |ts| && TurnTrace(ts[i], es, stopped)
    ensures Script(ts[..i]) + es <= Script(ts)
    ensures !stopped ==> Script(ts[..i]) + es == Script(ts[..i + 1])
  {
    ScriptPrefix(ts, i);
    var past, t := Script(ts[..i]), ts[i];
    Associate(past, Wait(t), Handle(t));
  }

  lemma {:induction false} ArriveAllHeap(s: State, xs: seq<Item>)
    ensures Run(s, ArriveAll(xs)) == s.(heap := HeapRuns.PushAll(s.heap, xs), arrived := s.arrived + xs)
    decreases |xs|
  {
    if xs != [] {
      assert ArriveAll(xs)[1..] == ArriveAll(xs[1..]);
      ArriveAllHeap(Step(s, Arrive(xs[0])), xs[1..]);
      assert s.arrived + [xs[0]] + xs[1..] == s.arrived + xs;
    }
  }

  /** Where the loop is after the wait, in terms of the queue's own operations. */
  function Waited(s: State, t: Turn): State {
    var h := HeapRuns.PushAll(s.heap, t.before);
    var all := s.arrived + t.before + t.during;
    if h == [] then
      var pc := if t.cancelled then Returned(|s.arrived + t.before|) else AtPop;
      State(HeapRuns.PushAll(h, t.during), pc, all, s.published, s.done || t.cancelled)
    else
      State(HeapRuns.PushAll(Heap.Pop(h), t.during), Holding(h[0]), all, s.published, s.done || t.cancelled)
  }

  lemma WaitSteps(s: State, t: Turn)
    ensures var r := Run(Step(Run(s, ArriveAll(t.before)), Check), ArriveAll(t.during));
      Run(s, Wait(t)) == if t.cancelled then Step(Step(r, CloseDone), Stop) else Step(r, Wake)
  {
    var b, d := ArriveAll(t.before), ArriveAll(t.during);
    RunConcat(s, b, [Check]);
    RunConcat(s, b + [Check], d);
    RunConcat(s, b + [Check] + d, if t.cancelled then [CloseDone, Stop] else [Wake]);
    var r := Run(s, b + [Check] + d);
    RunOne(Run(s, b), Check);
    RunOne(r, Wake);
    RunTwo(r, CloseDone, Stop);
  }

  /** The emptiness check and the arrivals that follow it. */
  function Checked(a: State, xs: seq<Item>): State
    requires a.pc.AtPop?
  {
    if a.heap == [] then State(HeapRuns.PushAll([], xs), Blocked(|a.arrived|), a.arrived + xs, a.published, a.done)
    else State(HeapRuns.PushAll(Heap.Pop(a.heap), xs), Holding(a.heap[0]), a.arrived + xs, a.published, a.done)
  }

  lemma CheckRun(a: State, xs: seq<Item>)
    requires a.pc.AtPop?
    ensures Run(Step(a, Check), ArriveAll(xs)) == Checked(a, xs)
  {
    ArriveAllHeap(Step(a, Check), xs);
  }

  lemma WaitRun(s: State, t: Turn)
    requires s.pc.AtPop?
    ensures Run(s, Wait(t)) == Waited(s, t)
  {
    WaitSteps(s, t);
    ArriveAllHeap(s, t.before);
    var a := State(HeapRuns.PushAll(s.heap, t.before), AtPop, s.arrived + t.before, s.published, s.done);
    assert Run(s, ArriveAll(t.before)) == a;
    CheckRun(a, t.during);
    WaitEnds(Checked(a, t.during), t.cancelled);
  }

  /** Cancelling ends a wait and nothing else; without it a wait ends in another check. */
  lemma WaitEnds(r: State, cancelled: bool)
    requires r.pc.Blocked? || r.pc.Holding?
    ensures (if cancelled then Step(Step(r, CloseDone), Stop) else Step(r, Wake)) ==
      var pc := if r.pc.Holding? then r.pc else if cancelled then Returned(r.pc.seen) else AtPop;
      State(r.heap, pc, r.arrived, r.published, r.done || cancelled)
  {
  }

  /** What handling the reply does; nothing, if Pop did not return an item. */
  function Handled(s: State, t: Turn): State {
    var h := HeapRuns.PushAll(s.heap, t.late);
    var r := s.(heap := h, arrived := s.arrived + t.late);
    if !s.pc.Holding? then r
    else if t.reply.Accepted? then r.(pc := AtPop, published := s.published + [s.pc.item])
    else r.(pc := AtPop, heap := Heap.Push(h, s.pc.item))
  }

  lemma HandleSteps(s: State, t: Turn)
    ensures Run(s, Handle(t)) == Step(Run(Step(s, Publish(t.reply)), ArriveAll(t.late)), Requeue)
  {
    var p, l := [Publish(t.reply)], ArriveAll(t.late);
    RunConcat(s, p, l);
    RunConcat(s, p + l, [Requeue]);
    RunOne(s, Publish(t.reply));
    RunOne(Run(s, p + l), Requeue);
  }

  lemma HandleRun(s: State, t: Turn)
    requires !s.pc.Failed?
    ensures Run(s, Handle(t)) == Handled(s, t)
  {
    HandleSteps(s, t);
    var p := Step(s, Publish(t.reply));
    ArriveAllHeap(p, t.late);
    var l := State(HeapRuns.PushAll(p.heap, t.late), p.pc, p.arrived + t.late, p.published, p.done);
    assert Run(p, ArriveAll(t.late)) == l;
    RequeueEnds(s, p, l, t);
  }

  lemma RequeueEnds(s: State, p: State, l: State, t: Turn)
    requires !s.pc.Failed? && p == Step(s, Publish(t.reply))
    requires l == State(HeapRuns.PushAll(p.heap, t.late), p.pc, p.arrived + t.late, p.published, p.done)
    ensures Step(l, Requeue) == Handled(s, t)
  {
    assert p.heap == s.heap && p.arrived == s.arrived && p.done == s.done;
  }

  lemma TurnRun(s: State, t: Turn)
    requires s.pc.AtPop?
    ensures Run(s, Wait(t)) == Waited(s, t)
    ensures Run(s, Wait(t) + Handle(t)) == Handled(Waited(s, t), t)
  {
    WaitRun(s, t);
    HandleRun(Waited(s, t), t);
    RunConcat(s, Wait(t), Handle(t));
  }

  /** Other goroutines push `xs`. */
  method Receive(q: Queue, xs: seq<Item>)
    requires q.Valid()
    modifies q
    ensures q.Valid() && q.items == HeapRuns.PushAll(old(q.items), xs)
  {
    for i := 0 to |xs|
      invariant q.Valid()
      invariant HeapRuns.PushAll(q.items, xs[i..]) == HeapRuns.PushAll(old(q.items), xs)
    {
      assert xs[i..][1..] == xs[i + 1..];
      q.Push(xs[i]);
    }
  }

  /** The end-of-turn balance, in terms of what was there at first and what arrived. */
  lemma Balance(items: seq<Item>, es: seq<Event>)
    requires Heap.IsHeap(items) && Hand(Run(Begin(items), es).pc) == []
    ensures var f := Run(Begin(items), es);
      multiset(items) + multiset(Arrivals(es)) == multiset(f.heap) + multiset(f.published)
  {
    Conservation(items, es);
    ArrivedGrows(Begin(items), es);
  }

  /** One emptiness check and what follows from it, up to the next one or to the return. */
  method OneTurn(q: Queue, turn: Turn, ghost s: State)
    returns (sent: seq<Item>, stopped: bool, ghost es: seq<Event>)
    requires q.Valid() && s.heap == q.items && s.pc.AtPop?
    modifies q
    ensures q.Valid()
    ensures TurnTrace(turn, es, stopped)
    ensures var r := Run(s, es);
      && r.heap == q.items && r.published == s.published + sent
      && (if stopped then r.pc.Returned? else r.pc.AtPop?)
  {
    sent, stopped, es := [], false, Wait(turn) + Handle(turn);
    TurnRun(s, turn);
    Receive(q, turn.before);
    var item, ok := q.TryPop();
    Receive(q, turn.during);
    if !ok && turn.cancelled {
      return [], true, Wait(turn);
    }
    if ok && turn.reply.Accepted? {
      sent := [item];
    }
    Receive(q, turn.late);
    if ok && !turn.reply.Accepted? {
      q.Push(item);
    }
  }

  /**
   * The loop does what the machine does on the same events; it ends early only by returning. Hence
   * every theorem about runs of the machine is about this loop: nothing is lost or duplicated, and
   * a stop leaves exactly the arrivals since the last emptiness check behind.
   */
  method DrainQueue(q: Queue, script: seq<Turn>) returns (published: seq<Item>, stopped: bool, ghost events: seq<Event>)
    requires q.Valid()
    modifies q
    ensures q.Valid()
    ensures events <= Script(script) && (!stopped ==> events == Script(script))
    ensures var f := Run(Begin(old(q.items)), events);
      && f.heap == q.items && f.published == published
      && (if stopped then f.pc.Returned? else f.pc.AtPop?)
    ensures multiset(old(q.items)) + multiset(Arrivals(events)) == multiset(q.items) + multiset(published)
  {
    published, stopped, events := [], false, [];
    ghost var start := Begin(q.items);
    var i := 0;
    while i < |script| && !stopped
      invariant 0 <= i <= |script| && q.Valid()
      invariant events <= Script(script) && (!stopped ==> events == Script(script[..i]))
      invariant var s := Run(start, events);
        s.heap == q.items && s.published == published && (if stopped then s.pc.Returned? else s.pc.AtPop?)
    {
      var turn := script[i];
      var sent;
      ghost var es;
      sent, stopped, es := OneTurn(q, turn, Run(start, events));
      NextTurn(script, i, es, stopped);
      RunConcat(start, events, es);
      published := published + sent;
      events := events + es;
      i := i + 1;
    }
    assert !stopped ==> script[..i] == script;
    Balance(start.heap, events);
  }
}
