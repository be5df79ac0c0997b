/** The order in which the gateway's threads publish: the drainer's bounds at the grain of single steps. */
module GatewayOrder {
  import opened PriorityOrder
  import Q = QueueProtocol
  import opened GatewayThreads
  import opened GatewayProgress
  import Drainer
  import Heap
  import QueueTheorems

  /** What the threads publish and enqueue is what the drainer machine publishes and receives. */
  lemma RunAdds(g: Gateway, acts: seq<Action>)
    requires Ok(g)
    ensures var f, es := Run(g, acts), MeaningOf(g, acts);
      && Ok(f)
      && f.published == g.published + Drainer.NewlyPublished(Abs(g), es)
      && Arrived(f.q.history) == Arrived(g.q.history) + Drainer.Arrivals(es)
  {
    RunSim(g, acts);
    var es := MeaningOf(g, acts);
    Drainer.PublishedGrows(Abs(g), es);
    Drainer.ArrivedGrows(Abs(g), es);
  }

  /** Published after `g`. */
  function Since(g: Gateway, f: Gateway): seq<Item>
    requires g.published <= f.published
  {
    f.published[|g.published|..]
  }

  // ---------------------------------------------------------------- overtaking

  /** The step at which a handler's push takes effect is the arrival. */
  lemma AppendArrives(g: Gateway, t: nat)
    requires Ok(g) && 0 < t < |g.q.threads| && g.q.threads[t].PushAppend?
    ensures var r := Step(g, HandlerStep(t));
      Ok(r) && Abs(r) == Drainer.Step(Abs(g), Drainer.Arrive(g.q.threads[t].item))
    ensures Abs(g).heap == g.q.items
  {
    StepSim(g, HandlerStep(t));
    StepKeepsQueue(g, HandlerStep(t));
    Drainer.RunOne(Abs(g), Drainer.Arrive(g.q.threads[t].item));
    assert Q.Holds(g.q.threads[t]) <==> g.q.owner == Q.Thread(t);
  }

  /**
   * From the step at which a handler appends `x`, through any interleaving, as long as `x` has not been
   * published: no more has been published since than items in the slice at that step and later arrivals
   * whose key is not below that of `x`, and one in the drain loop's hand.
   */
  lemma Overtaking(handlers: nat, before: seq<Action>, t: nat, x: Item, after: seq<Action>)
    requires var g := Run(Init(handlers), before); 0 < t < |g.q.threads| && g.q.threads[t] == Q.PushAppend(x)
    ensures var g := Run(Init(handlers), before);
      var r := Step(g, HandlerStep(t));
      var f := Run(r, after);
      && g.published <= f.published && Arrived(r.q.history) <= Arrived(f.q.history)
      && (x !in Since(g, f) ==>
        |Since(g, f)| <= NotBelow(g.q.items, x) + |Drainer.Hand(Abs(g).pc)|
          + NotBelow(Arrived(f.q.history)[|Arrived(r.q.history)|..], x))
  {
    RunSim(Init(handlers), before);
    GatewayRefinesDrainer(handlers, before);
    var g := Run(Init(handlers), before);
    AppendArrives(g, t);
    var r := Step(g, HandlerStep(t));
    RunAdds(r, after);
    var es := MeaningOf(r, after);
    assert Since(g, Run(r, after)) == Drainer.NewlyPublished(Abs(r), es);
    if x !in Since(g, Run(r, after)) {
      Drainer.OvertakingBound([], MeaningOf(Init(handlers), before), x, es);
    }
  }

  // ---------------------------------------------------------------- stretches without arrivals

  /** Whatever the threads do from here on without a push taking effect, they publish in priority order. */
  ghost predicate QuietlyInOrder(g: Gateway) {
    forall acts :: Arrived(Run(g, acts).q.history) == Arrived(g.q.history) && g.published <= Run(g, acts).published ==>
      LeavesInOrder(Since(g, Run(g, acts)))
  }

  /** The loop is not about to publish an item that something in the slice beats. */
  ghost predicate HandLeads(g: Gateway)
    requires |g.q.threads| > 0
  {
    Abs(g).pc.Holding? ==> Preferred(Abs(g).pc.item, multiset(g.q.items))
  }

  lemma LeadingHandKeepsOrder(handlers: nat, before: seq<Action>)
    requires var g := Run(Init(handlers), before); Ok(g) && HandLeads(g)
    ensures QuietlyInOrder(Run(Init(handlers), before))
  {
    GatewayRefinesDrainer(handlers, before);
    var g := Run(Init(handlers), before);
    QueueTheorems.SettledItems(g.q);
    Drainer.QuietStretchInOrder([], MeaningOf(Init(handlers), before));
    forall acts | Arrived(Run(g, acts).q.history) == Arrived(g.q.history)
      ensures g.published <= Run(g, acts).published && LeavesInOrder(Since(g, Run(g, acts)))
    {
      RunAdds(g, acts);
      assert Drainer.Arrivals(MeaningOf(g, acts)) == [];
      assert Since(g, Run(g, acts)) == Drainer.NewlyPublished(Abs(g), MeaningOf(g, acts));
    }
  }

  // The converse: with the mutex free the loop can publish twice on its own.

  const GO := Drain(false, Drainer.Accepted)

  lemma PublishGo(g: Gateway, y: Item)
    requires g.loop == Publishing(y)
    ensures Step(g, GO) == g.(loop := AtLoop, published := g.published + [y])
  {
  }

  /** With the mutex free and `x` in hand, the loop can publish `x` and the root next, and nothing arrives. */
  lemma PublishesTwice(g: Gateway, x: Item) returns (n: nat)
    requires Stands(g, Publishing(x)) && g.q.items != []
    ensures var f := Run(g, Again(GO, n));
      f.published == g.published + [x, g.q.items[0]] && Arrived(f.q.history) == Arrived(g.q.history)
  {
    PublishGo(g, x);
    var q := Step(g, GO);
    var r := LoopPops(q, false, Drainer.Accepted);
    PublishGo(r, g.q.items[0]);
    var f := Step(r, GO);
    assert f.published == g.published + [x, g.q.items[0]];
    ComesSelf(f, GO);
    ComesNext(r, GO, f);
    ComesOn(q, GO, r, f);
    ComesNext(g, GO, f);
    n :| Run(g, Again(GO, n)) == f;
  }

  lemma BeatenHandBreaksOrder(g: Gateway)
    requires Ok(g) && g.q.owner.Free? && !HandLeads(g)
    ensures !QuietlyInOrder(g)
  {
    var x, s := Abs(g).pc.item, g.q;
    assert Q.Holds(s.threads[0]) <==> s.owner == Q.Thread(0);
    assert Stands(g, Publishing(x));
    var y :| y in multiset(s.items) && Below(x, y);
    assert Heap.IsHeap(s.items);
    Heap.RootPreferred(s.items);
    var n := PublishesTwice(g, x);
    var out := [x, s.items[0]];
    assert Since(g, Run(g, Again(GO, n))) == out;
    assert Below(out[0], out[1]);
  }

  /**
   * For the threads: an item in hand that nothing in the slice beats makes every stretch without
   * arrivals publish in priority order; and whenever the mutex is free nothing less does.
   */
  lemma QuietThreads(handlers: nat, before: seq<Action>)
    ensures var g := Run(Init(handlers), before);
      && |g.q.threads| > 0
      && (HandLeads(g) ==> QuietlyInOrder(g))
      && (g.q.owner.Free? ==> (QuietlyInOrder(g) <==> HandLeads(g)))
  {
    RunSim(Init(handlers), before);
    var g := Run(Init(handlers), before);
    if HandLeads(g) {
      LeadingHandKeepsOrder(handlers, before);
    } else if g.q.owner.Free? {
      BeatenHandBreaksOrder(g);
    }
  }
}
