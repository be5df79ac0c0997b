/**
 * The whole system at the grain of single steps: handlers, drain loop and helper goroutines under the
 * queue's mutex, the broker, and the workers, all interleaving freely. Every run of it is a run of
 * the pipeline, so what holds there holds here, down to the slice and the calls of the handlers.
 */
module EndToEnd {
  import opened PriorityOrder
  import opened Pipeline
  import PipelineSafety
  import Drainer
  import GatewayThreads
  import QueueProtocol
  import QueueTheorems

  datatype System = System(
    gateway: GatewayThreads.Gateway,
    stream: seq<Record>,
    workers: seq<Process>,
    deliveries: seq<nat>,
    history: seq<Entry>
  )

  /** A step of a goroutine of the gateway, or something outside it: a delivery, a worker's step, a failure. */
  datatype Move = Inside(step: GatewayThreads.Action) | Outside(action: Pipeline.Action)

  function Start(handlers: nat, workers: nat): System {
    System(GatewayThreads.Init(handlers), [], seq(workers, _ => FRESH), [], [])
  }

  /** What the broker keeps when the drain loop takes this step. */
  function Kept(g: GatewayThreads.Gateway, a: GatewayThreads.Action): seq<Record> {
    if !a.Drain? || !g.loop.Publishing? || a.reply.ErrorNotStored? then []
    else [Record(g.loop.item, a.reply.Accepted?, false)]
  }

  function Take(c: Setup, s: System, m: Move): System {
    match m
    case Inside(a) => s.(gateway := GatewayThreads.Step(s.gateway, a), stream := s.stream + Kept(s.gateway, a))
    case Outside(a) =>
      if a.Gateway? then s
      else
        var r := Step(c, State(Drainer.Begin([]), s.stream, s.workers, s.deliveries, s.history), a);
        s.(stream := r.stream, workers := r.workers, deliveries := r.deliveries, history := r.history)
  }

  function TakeAll(c: Setup, s: System, ms: seq<Move>): System
    decreases |ms|
  {
    if ms == [] then s else TakeAll(c, Take(c, s, ms[0]), ms[1..])
  }

  // ---------------------------------------------------------------- refinement

  /** The pipeline's view, in which the queue's operations are atomic. */
  function View(s: System): State
    requires |s.gateway.q.threads| > 0
  {
    State(GatewayThreads.Abs(s.gateway), s.stream, s.workers, s.deliveries, s.history)
  }

  function Shows(s: System, m: Move): seq<Action> {
    match m
    case Inside(a) =>
      var es := GatewayThreads.Meaning(s.gateway, a);
      if es == [] then [] else [Gateway(es[0])]
    case Outside(a) => if a.Gateway? then [] else [a]
  }

  /** The publishing step is the only one at which the broker keeps anything, on both sides. */
  lemma KeptIsStored(g: GatewayThreads.Gateway, a: GatewayThreads.Action)
    requires |g.q.threads| > 0
    ensures var es := GatewayThreads.Meaning(g, a);
      |es| <= 1 && Kept(g, a) == if es == [] then [] else Stored(GatewayThreads.Abs(g), es[0])
  {
  }

  lemma OutsideLeavesGate(c: Setup, s: State, gate: Drainer.State, a: Action)
    requires !a.Gateway?
    ensures Step(c, s, a) == Step(c, s.(gate := gate), a).(gate := s.gate)
  {
  }

  lemma RunOne(c: Setup, s: State, a: Action)
    ensures Run(c, s, [a]) == Step(c, s, a)
  {
    assert [a][1..] == [];
  }

  lemma InsideViewed(c: Setup, s: System, a: GatewayThreads.Action)
    requires |s.gateway.q.threads| > 0 && GatewayThreads.Simulated(s.gateway, a)
    ensures View(Take(c, s, Inside(a))) == Run(c, View(s), Shows(s, Inside(a)))
  {
    var g, es := s.gateway, GatewayThreads.Meaning(s.gateway, a);
    KeptIsStored(g, a);
    if es == [] {
      assert s.stream + [] == s.stream;
    } else {
      assert es == [es[0]];
      Drainer.RunOne(GatewayThreads.Abs(g), es[0]);
      RunOne(c, View(s), Gateway(es[0]));
    }
  }

  lemma InsideRefines(c: Setup, s: System, a: GatewayThreads.Action)
    requires GatewayThreads.Ok(s.gateway)
    ensures GatewayThreads.Ok(Take(c, s, Inside(a)).gateway)
    ensures View(Take(c, s, Inside(a))) == Run(c, View(s), Shows(s, Inside(a)))
  {
    GatewayThreads.StepSim(s.gateway, a);
    GatewayThreads.StepKeepsQueue(s.gateway, a);
    InsideViewed(c, s, a);
  }

  lemma OutsideRefines(c: Setup, s: System, a: Action)
    requires |s.gateway.q.threads| > 0
    ensures Take(c, s, Outside(a)).gateway == s.gateway
    ensures View(Take(c, s, Outside(a))) == Run(c, View(s), Shows(s, Outside(a)))
  {
    if !a.Gateway? {
      OutsideLeavesGate(c, View(s), Drainer.Begin([]), a);
      RunOne(c, View(s), a);
    }
  }

  function ShowsAll(c: Setup, s: System, ms: seq<Move>): seq<Action>
    decreases |ms|
  {
    if ms == [] then [] else Shows(s, ms[0]) + ShowsAll(c, Take(c, s, ms[0]), ms[1..])
  }

  lemma {:induction false} RunConcat(c: Setup, s: State, a: seq<Action>, b: seq<Action>)
    ensures Run(c, s, a + b) == Run(c, Run(c, s, a), b)
    decreases |a|
  {
    if a == [] {
      assert a + b == b;
    } else {
      assert (a + b)[1..] == a[1..] + b;
      RunConcat(c, Step(c, s, a[0]), a[1..], b);
    }
  }

  lemma {:induction false} RunRefines(c: Setup, s: System, ms: seq<Move>)
    requires GatewayThreads.Ok(s.gateway)
    ensures GatewayThreads.Ok(TakeAll(c, s, ms).gateway)
    ensures View(TakeAll(c, s, ms)) == Run(c, View(s), ShowsAll(c, s, ms))
    decreases |ms|
  {
    if ms != [] {
      match ms[0] {
        case Inside(a) => InsideRefines(c, s, a);
        case Outside(a) => OutsideRefines(c, s, a);
      }
      var r := Take(c, s, ms[0]);
      RunRefines(c, r, ms[1..]);
      RunConcat(c, View(s), Shows(s, ms[0]), ShowsAll(c, r, ms[1..]));
    }
  }

  /** Every interleaving of all the steps is a run of the pipeline. */
  lemma SystemRefinesPipeline(c: Setup, handlers: nat, workers: nat, ms: seq<Move>)
    ensures var s := TakeAll(c, Start(handlers, workers), ms);
      && GatewayThreads.Ok(s.gateway)
      && View(s) == Run(c, Init([], workers), ShowsAll(c, Start(handlers, workers), ms))
  {
    RunRefines(c, Start(handlers, workers), ms);
  }

  // ---------------------------------------------------------------- theorems

  lemma SliceInView(g: GatewayThreads.Gateway)
    requires GatewayThreads.Ok(g)
    ensures multiset(GatewayThreads.Abs(g).heap) == multiset(g.q.items)
    ensures GatewayThreads.Abs(g).arrived == GatewayThreads.Arrived(g.q.history)
  {
    QueueTheorems.SettledItems(g.q);
  }

  /**
   * The drain loop has taken `x` from the slice and neither published it nor put it back: outside
   * the queue, on the way back into it, or on the way out while the slice is repaired.
   */
  predicate InHand(g: GatewayThreads.Gateway, x: Item)
    requires |g.q.threads| > 0
  {
    var pc := g.q.threads[0];
    match g.loop
    case Publishing(y) => x == y
    case Requeueing(y) => x == y
    case InPush(y) => x == y && (pc.PushLock? || pc.PushAppend?)
    case InPop => (pc.SiftRoot? && pc.item == x) || (pc.Leave? && pc.result == QueueProtocol.Got(x))
    case _ => false
  }

  lemma HandIsInHand(g: GatewayThreads.Gateway, x: Item)
    requires |g.q.threads| > 0
    ensures x in Drainer.Hand(GatewayThreads.Abs(g).pc) <==> InHand(g, x)
  {
  }

  /** Where a notification can be, once its push has taken effect. */
  ghost predicate Whereabouts(c: Setup, s: System, x: Item)
    requires |s.gateway.q.threads| > 0
  {
    || x in s.gateway.q.items
    || InHand(s.gateway, x)
    || exists n :: 0 <= n < |s.stream| && s.stream[n].item == x && s.stream[n].reported
        && PipelineSafety.Accounted(c, View(s), n)
  }

  /**
   * Counted with multiplicity, in every reachable state: what handlers have enqueued is what the
   * slice holds, what the drain loop has in hand and what the broker has confirmed to it.
   */
  lemma SystemAccounting(c: Setup, handlers: nat, workers: nat, ms: seq<Move>)
    requires c.capacity >= 1
    ensures var s := TakeAll(c, Start(handlers, workers), ms); var q := s.gateway.q;
      && |q.threads| > 0
      && multiset(GatewayThreads.Arrived(q.history)) ==
           multiset(q.items) + multiset(Drainer.Hand(View(s).gate.pc)) + multiset(Reported(s.stream))
      && (forall n :: 0 <= n < |s.stream| ==> PipelineSafety.Accounted(c, View(s), n))
  {
    SystemRefinesPipeline(c, handlers, workers, ms);
    PipelineSafety.Accounting(c, workers, ShowsAll(c, Start(handlers, workers), ms));
    SliceInView(TakeAll(c, Start(handlers, workers), ms).gateway);
  }

  lemma ArrivedIsAccounted(c: Setup, handlers: nat, workers: nat, ms: seq<Move>, x: Item)
    requires c.capacity >= 1
    requires x in GatewayThreads.Arrived(TakeAll(c, Start(handlers, workers), ms).gateway.q.history)
    ensures var s := TakeAll(c, Start(handlers, workers), ms);
      |s.gateway.q.threads| > 0 && Whereabouts(c, s, x)
  {
    SystemRefinesPipeline(c, handlers, workers, ms);
    var s := TakeAll(c, Start(handlers, workers), ms);
    SliceInView(s.gateway);
    PipelineSafety.FateOf(c, workers, ShowsAll(c, Start(handlers, workers), ms), x);
    HandIsInHand(s.gateway, x);
    if x in View(s).gate.heap {
      assert x in multiset(s.gateway.q.items);
    }
  }

  lemma {:induction false} CommitArrives(h: QueueProtocol.Trace, j: nat, x: Item)
    requires j < |QueueTheorems.Events(h)|
    requires var e := QueueTheorems.Events(h)[j]; e.Commit? && e.t != 0 && e.effect == QueueProtocol.Enqueue(x)
    ensures x in GatewayThreads.Arrived(h)
  {
    if j < |QueueTheorems.Events(h.past)| {
      CommitArrives(h.past, j, x);
    }
  }

  /** The push that returns at `k` has made its item arrive. */
  lemma PushTookEffect(g: GatewayThreads.Gateway, t: nat, k: nat) returns (i: nat, j: nat)
    requires GatewayThreads.Ok(g) && 0 < t < |g.q.threads|
    requires var es := QueueTheorems.Events(g.q.history);
      k < |es| && es[k] == QueueProtocol.Return(t, QueueProtocol.NoResult)
    ensures var es := QueueTheorems.Events(g.q.history);
      QueueTheorems.TookEffect(es, t, i, j, k) && es[i].op.OpPush? && es[i].op.item in GatewayThreads.Arrived(g.q.history)
  {
    var h := g.q.history;
    assert QueueProtocol.PhaseOk(g.q.threads[t], QueueProtocol.PhaseIn(h, t));
    QueueTheorems.ReturnWitness(h, t, k);
    var es := QueueTheorems.Events(h);
    i, j :| QueueTheorems.TookEffect(es, t, i, j, k);
    CommitArrives(h, j, es[i].op.item);
  }

  /**
   * In every reachable state: once a handler's Push has returned, its notification is in the slice,
   * in the drain loop's hand, or in a message that the broker confirmed to the loop and that is
   * unacknowledged by the worker or has had a successful send or a DLQ push on every registered
   * channel.
   */
  lemma PushedIsAccounted(c: Setup, handlers: nat, workers: nat, ms: seq<Move>, t: nat, k: nat)
    requires c.capacity >= 1
    requires var q := TakeAll(c, Start(handlers, workers), ms).gateway.q;
      var es := QueueTheorems.Events(q.history);
      && 0 < t < |q.threads|
      && k < |es| && es[k] == QueueProtocol.Return(t, QueueProtocol.NoResult)
    ensures var s := TakeAll(c, Start(handlers, workers), ms);
      var es := QueueTheorems.Events(s.gateway.q.history);
      exists i, j :: QueueTheorems.TookEffect(es, t, i, j, k) && es[i].op.OpPush? && Whereabouts(c, s, es[i].op.item)
  {
    SystemRefinesPipeline(c, handlers, workers, ms);
    var s := TakeAll(c, Start(handlers, workers), ms);
    var i, j := PushTookEffect(s.gateway, t, k);
    var es := QueueTheorems.Events(s.gateway.q.history);
    ArrivedIsAccounted(c, handlers, workers, ms, es[i].op.item);
    assert QueueTheorems.TookEffect(es, t, i, j, k);
  }
}
