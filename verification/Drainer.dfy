/**
 * The loop that moves items from the queue to the broker. Queue operations are single steps here,
 * which QueueTheorems.Linearisable justifies; everything else interleaves freely. An event that is
 * not possible leaves the state as it is.
 */
module Drainer {
  import opened Sequences
  import opened PriorityOrder
  import opened Heap

  /** Where the loop stands; `seen` counts the arrivals at its latest emptiness check. */
  datatype Pc =
    | AtPop
    | Blocked(seen: nat)
    | Holding(item: Item)
    | Failed(item: Item)
    | Returned(seen: nat)

  datatype State = State(
    heap: seq<Item>,
    pc: Pc,
    arrived: seq<Item>, // pushed from outside, in order
    published: seq<Item>, // Publish returned no error, in order
    done: bool
  )

  /** The broker may keep a message and still report an error. */
  datatype Reply = Accepted | ErrorButStored | ErrorNotStored

  datatype Event =
    | Arrive(item: Item)
    | CloseDone
    | Check // the emptiness check of Pop, and its removal of the root
    | Wake // blocked Pop looks again
    | Stop // blocked Pop sees the closed channel
    | Publish(reply: Reply)
    | Requeue

  /** The loop is about to start on a queue that already holds `items`. */
  function Begin(items: seq<Item>): State {
    State(items, AtPop, items, [], false)
  }

  function Step(s: State, e: Event): State {
    match e
    case Arrive(x) => s.(heap := Push(s.heap, x), arrived := s.arrived + [x])
    case CloseDone => s.(done := true)
    case Check =>
      if !s.pc.AtPop? then s
      else if s.heap == [] then s.(pc := Blocked(|s.arrived|))
      else s.(heap := Pop(s.heap), pc := Holding(s.heap[0]))
    case Wake => if s.pc.Blocked? then s.(pc := AtPop) else s
    case Stop => if s.pc.Blocked? && s.done then s.(pc := Returned(s.pc.seen)) else s
    case Publish(reply) =>
      if !s.pc.Holding? then s
      else if reply.Accepted? then s.(pc := AtPop, published := s.published + [s.pc.item])
      else s.(pc := Failed(s.pc.item))
    case Requeue => if s.pc.Failed? then s.(pc := AtPop, heap := Push(s.heap, s.pc.item)) else s
  }

  function Run(s: State, es: seq<Event>): State
    decreases |es|
  {
    if es == [] then s else Run(Step(s, es[0]), es[1..])
  }

  function Hand(pc: Pc): seq<Item> {
    match pc
    case Holding(x) => [x]
    case Failed(x) => [x]
    case _ => []
  }

  lemma {:induction false} RunConcat(s: State, es: seq<Event>, fs: seq<Event>)
    ensures Run(s, es + fs) == Run(Run(s, es), fs)
    decreases |es|
  {
    if es == [] {
      assert es + fs == fs;
    } else {
      assert (es + fs)[1..] == es[1..] + fs;
      RunConcat(Step(s, es[0]), es[1..], fs);
    }
  }

  lemma RunOne(s: State, e: Event)
    ensures Run(s, [e]) == Step(s, e)
  {
    assert [e][1..] == [];
  }

  lemma RunTwo(s: State, e: Event, f: Event)
    ensures Run(s, [e, f]) == Step(Step(s, e), f)
  {
    assert [e, f] == [e] + [f];
    RunConcat(s, [e], [f]);
    RunOne(s, e);
    RunOne(Step(s, e), f);
  }

  // ---------------------------------------------------------------- conservation

  predicate SeenOk(s: State) {
    match s.pc
    case Blocked(k) => k <= |s.arrived|
    case Returned(k) => k <= |s.arrived|
    case _ => true
  }

  /** While blocked or stopped, everything seen is published and everything else is in the queue. */
  ghost predicate NothingPending(s: State)
    requires SeenOk(s)
  {
    s.pc.Blocked? || s.pc.Returned? ==>
      && multiset(s.published) == multiset(s.arrived[..s.pc.seen])
      && multiset(s.heap) == multiset(s.arrived[s.pc.seen..])
  }

  ghost predicate Inv(s: State) {
    && IsHeap(s.heap)
    && multiset(s.arrived) == multiset(s.heap) + multiset(Hand(s.pc)) + multiset(s.published)
    && SeenOk(s)
    && NothingPending(s)
    && (s.pc.Returned? ==> s.done)
  }

  lemma ArriveKeepsPending(s: State, x: Item)
    requires SeenOk(s) && NothingPending(s) && IsHeap(s.heap)
    ensures SeenOk(Step(s, Arrive(x))) && NothingPending(Step(s, Arrive(x)))
  {
    PushCorrect(s.heap, x);
    var r := Step(s, Arrive(x));
    if s.pc.Blocked? || s.pc.Returned? {
      var k := s.pc.seen;
      assert r.arrived[..k] == s.arrived[..k];
      assert r.arrived[k..] == s.arrived[k..] + [x];
    }
  }

  lemma ArriveKeepsInv(s: State, x: Item)
    requires Inv(s)
    ensures Inv(Step(s, Arrive(x)))
  {
    PushCorrect(s.heap, x);
    ArriveKeepsPending(s, x);
  }

  lemma CheckKeepsInv(s: State)
    requires Inv(s)
    ensures Inv(Step(s, Check))
  {
    if s.pc.AtPop? {
      if s.heap == [] {
        assert s.arrived[..|s.arrived|] == s.arrived;
      } else {
        PopCorrect(s.heap);
      }
    }
  }

  lemma RequeueKeepsInv(s: State)
    requires Inv(s)
    ensures Inv(Step(s, Requeue))
  {
    if s.pc.Failed? {
      PushCorrect(s.heap, s.pc.item);
    }
  }

  lemma PublishKeepsInv(s: State, reply: Reply)
    requires Inv(s)
    ensures Inv(Step(s, Publish(reply)))
  {
  }

  lemma StepKeepsInv(s: State, e: Event)
    requires Inv(s)
    ensures Inv(Step(s, e))
  {
    match e
    case Arrive(x) => ArriveKeepsInv(s, x);
    case Check => CheckKeepsInv(s);
    case Publish(reply) => PublishKeepsInv(s, reply);
    case Requeue => RequeueKeepsInv(s);
    case CloseDone =>
    case Wake =>
    case Stop =>
  }

  lemma {:induction false} RunKeepsInv(s: State, es: seq<Event>)
    requires Inv(s)
    ensures Inv(Run(s, es))
    decreases |es|
  {
    if es != [] {
      StepKeepsInv(s, es[0]);
      RunKeepsInv(Step(s, es[0]), es[1..]);
    }
  }

  /** Every arrival is in the queue, in the drainer's hand or published, and in one of them only. */
  lemma Conservation(items: seq<Item>, es: seq<Event>)
    requires IsHeap(items)
    ensures var s := Run(Begin(items), es);
      multiset(s.arrived) == multiset(s.heap) + multiset(Hand(s.pc)) + multiset(s.published)
  {
    RunKeepsInv(Begin(items), es);
  }

  /**
   * If the loop has returned, then what had arrived at its last emptiness check is exactly what has
   * been published; what arrived later is stranded in the queue. So a stop loses nothing if and
   * only if nothing arrived after that check.
   */
  lemma CleanStop(items: seq<Item>, es: seq<Event>)
    requires IsHeap(items)
    ensures var s := Run(Begin(items), es);
      s.pc.Returned? ==>
        && s.done
        && s.pc.seen <= |s.arrived|
        && multiset(s.published) == multiset(s.arrived[..s.pc.seen])
        && multiset(s.heap) == multiset(s.arrived[s.pc.seen..])
        && (multiset(s.published) == multiset(s.arrived) <==> s.pc.seen == |s.arrived|)
  {
    RunKeepsInv(Begin(items), es);
    var s := Run(Begin(items), es);
    if s.pc.Returned? {
      var k := s.pc.seen;
      assert s.arrived == s.arrived[..k] + s.arrived[k..];
      assert |multiset(s.arrived[k..])| == |s.arrived| - k;
      assert k == |s.arrived| ==> s.arrived[..k] == s.arrived;
    }
  }

  /** Pushed after the last emptiness check of a loop that is then stopped, an item stays behind. */
  lemma Stranded(x: Item)
    ensures var s := Run(Begin([]), [Check, Arrive(x), CloseDone, Stop]);
      s.pc == Returned(0) && s.heap == [x] && s.arrived == [x] && s.published == []
  {
    assert Push([], x) == [x];
    var s2 := State([x], Blocked(0), [x], [], false);
    RunTwo(Begin([]), Check, Arrive(x));
    assert Run(Begin([]), [Check, Arrive(x)]) == s2;
    RunTwo(s2, CloseDone, Stop);
    assert [Check, Arrive(x), CloseDone, Stop] == [Check, Arrive(x)] + [CloseDone, Stop];
    RunConcat(Begin([]), [Check, Arrive(x)], [CloseDone, Stop]);
  }

  // ---------------------------------------------------------------- priority order

  /** Arrivals among the events. */
  function Arrivals(es: seq<Event>): seq<Item> {
    if es == [] then []
    else (if es[0].Arrive? then [es[0].item] else []) + Arrivals(es[1..])
  }

  lemma {:induction false} ArrivedGrows(s: State, es: seq<Event>)
    ensures Run(s, es).arrived == s.arrived + Arrivals(es)
    decreases |es|
  {
    if es != [] {
      var r := Step(s, es[0]);
      ArrivedGrows(r, es[1..]);
      var now := if es[0].Arrive? then [es[0].item] else [];
      assert r.arrived == s.arrived + now;
      assert s.arrived + now + Arrivals(es[1..]) == s.arrived + (now + Arrivals(es[1..]));
    }
  }

  /** What an event adds to the published sequence. */
  function Output(s: State, e: Event): seq<Item> {
    if e == Publish(Accepted) && s.pc.Holding? then [s.pc.item] else []
  }

  function NewlyPublished(s: State, es: seq<Event>): seq<Item>
    decreases |es|
  {
    if es == [] then []
    else Output(s, es[0]) + NewlyPublished(Step(s, es[0]), es[1..])
  }

  lemma {:induction false} PublishedGrows(s: State, es: seq<Event>)
    ensures Run(s, es).published == s.published + NewlyPublished(s, es)
    decreases |es|
  {
    if es != [] {
      PublishedGrows(Step(s, es[0]), es[1..]);
    }
  }

  /** How many items can still be published before `x`: the hand counts whatever it holds. */
  function Ahead(s: State, x: Item): nat {
    NotBelow(s.heap, x) + |Hand(s.pc)|
  }

  predicate Waits(s: State, x: Item) {
    x in s.heap || x in Hand(s.pc)
  }

  lemma CountPush(l: seq<Item>, y: Item, x: Item)
    requires IsHeap(l)
    ensures NotBelow(Push(l, y), x) == NotBelow(l, x) + if Below(y, x) then 0 else 1
  {
    PushCorrect(l, y);
    NotBelowPermutation(Push(l, y), l + [y], x);
    NotBelowConcat(l, [y], x);
    assert NotBelow([y], x) == if Below(y, x) then 0 else 1;
  }

  lemma CountPop(l: seq<Item>, x: Item)
    requires IsHeap(l) && x in l
    ensures NotBelow(l, x) == NotBelow(Pop(l), x) + 1
    ensures forall y :: y in l && y != l[0] ==> y in Pop(l)
  {
    PopCorrect(l);
    assert x in multiset(l) && !Below(l[0], x);
    NotBelowPermutation(l, Pop(l) + [l[0]], x);
    NotBelowConcat(Pop(l), [l[0]], x);
    assert NotBelow([l[0]], x) == 1;
    forall y | y in l && y != l[0]
      ensures y in Pop(l)
    {
      assert y in multiset(l);
      assert y in multiset(Pop(l));
    }
  }

  lemma AheadArrive(s: State, y: Item, x: Item)
    requires IsHeap(s.heap) && Waits(s, x)
    ensures IsHeap(Step(s, Arrive(y)).heap) && Waits(Step(s, Arrive(y)), x)
    ensures Ahead(Step(s, Arrive(y)), x) == Ahead(s, x) + NotBelow([y], x)
  {
    CountPush(s.heap, y, x);
    PushCorrect(s.heap, y);
    assert x in s.heap ==> x in multiset(Push(s.heap, y));
    assert NotBelow([y], x) == if Below(y, x) then 0 else 1;
  }

  lemma AheadCheck(s: State, x: Item)
    requires IsHeap(s.heap) && Waits(s, x)
    ensures IsHeap(Step(s, Check).heap) && Waits(Step(s, Check), x)
    ensures Ahead(Step(s, Check), x) == Ahead(s, x)
  {
    if s.pc.AtPop? && s.heap != [] {
      CountPop(s.heap, x);
      PopCorrect(s.heap);
    }
  }

  lemma AheadRequeue(s: State, x: Item)
    requires IsHeap(s.heap) && Waits(s, x)
    ensures IsHeap(Step(s, Requeue).heap) && Waits(Step(s, Requeue), x)
    ensures Ahead(Step(s, Requeue), x) <= Ahead(s, x)
  {
    if s.pc.Failed? {
      CountPush(s.heap, s.pc.item, x);
      PushCorrect(s.heap, s.pc.item);
      assert x in multiset(s.heap) + multiset{s.pc.item};
    }
  }

  /** One event: unless it publishes `x`, what it publishes is paid for by what was ahead of `x`. */
  lemma AheadStep(s: State, e: Event, x: Item)
    requires IsHeap(s.heap) && Waits(s, x)
    requires x !in Output(s, e)
    ensures IsHeap(Step(s, e).heap) && Waits(Step(s, e), x)
    ensures |Output(s, e)| + Ahead(Step(s, e), x) <= Ahead(s, x) + NotBelow(Arrivals([e]), x)
  {
    match e
    case Arrive(y) =>
      AheadArrive(s, y, x);
      assert Arrivals([e]) == [y];
    case Check => AheadCheck(s, x);
    case Requeue => AheadRequeue(s, x);
    case _ =>
  }

  lemma {:induction false} AheadRun(s: State, es: seq<Event>, x: Item)
    requires IsHeap(s.heap) && Waits(s, x)
    requires x !in NewlyPublished(s, es)
    ensures Waits(Run(s, es), x)
    ensures |NewlyPublished(s, es)| + Ahead(Run(s, es), x) <= Ahead(s, x) + NotBelow(Arrivals(es), x)
    decreases |es|
  {
    if es != [] {
      var e, r := es[0], Step(s, es[0]);
      assert Output(s, e) + NewlyPublished(r, es[1..]) == NewlyPublished(s, es);
      AheadStep(s, e, x);
      AheadRun(r, es[1..], x);
      ArrivalsNotBelow(es, x);
    }
  }

  lemma ArrivalsNotBelow(es: seq<Event>, x: Item)
    requires es != []
    ensures NotBelow(Arrivals(es), x) == NotBelow(Arrivals([es[0]]), x) + NotBelow(Arrivals(es[1..]), x)
  {
    assert Arrivals([es[0]]) == if es[0].Arrive? then [es[0].item] else [];
    NotBelowConcat(Arrivals([es[0]]), Arrivals(es[1..]), x);
  }

  lemma {:induction false} CountsItself(l: seq<Item>, x: Item)
    requires x in l
    ensures NotBelow(l, x) >= 1
  {
    if l[0] != x {
      CountsItself(l[1..], x);
    }
  }

  /**
   * From the push of `x` on, as long as `x` has not been published, the items published meanwhile
   * number at most: those queued with `x` whose key is not below, later arrivals whose key is not
   * below, and one already in the drainer's hand. No pattern of failures adds to this.
   */
  lemma OvertakingBound(items: seq<Item>, before: seq<Event>, x: Item, es: seq<Event>)
    requires IsHeap(items)
    requires var s := Run(Begin(items), before); x !in NewlyPublished(Step(s, Arrive(x)), es)
    ensures var s := Run(Begin(items), before);
      |NewlyPublished(Step(s, Arrive(x)), es)| <= NotBelow(s.heap, x) + |Hand(s.pc)| + NotBelow(Arrivals(es), x)
  {
    RunKeepsInv(Begin(items), before);
    var s := Run(Begin(items), before);
    var r := Step(s, Arrive(x));
    StepKeepsInv(s, Arrive(x));
    PushCorrect(s.heap, x);
    CountPush(s.heap, x, x);
    assert x in multiset(r.heap);
    AheadRun(r, es, x);
    var f := Run(r, es);
    if x in f.heap {
      CountsItself(f.heap, x);
    }
    assert Ahead(f, x) >= 1;
  }

  /** The item about to be published is not beaten by anything still queued. */
  ghost predicate HandLeads(s: State) {
    s.pc.Holding? ==> Preferred(s.pc.item, multiset(s.heap))
  }

  /** Arrived and not yet published. */
  function Left(s: State): multiset<Item> {
    multiset(s.heap) + multiset(Hand(s.pc))
  }

  ghost predicate QuietOk(s: State, e: Event) {
    && HandLeads(Step(s, e))
    && Left(s) == Left(Step(s, e)) + multiset(Output(s, e))
    && forall y :: y in Output(s, e) ==> Preferred(y, Left(Step(s, e)))
  }

  lemma QuietCheck(s: State)
    requires IsHeap(s.heap) && HandLeads(s)
    ensures QuietOk(s, Check)
  {
    if s.pc.AtPop? && s.heap != [] {
      PopCorrect(s.heap);
      assert multiset(Hand(Step(s, Check).pc)) == multiset{s.heap[0]};
    }
  }

  lemma QuietAccept(s: State)
    requires HandLeads(s) && s.pc.Holding?
    ensures QuietOk(s, Publish(Accepted))
  {
    var x, r := s.pc.item, Step(s, Publish(Accepted));
    assert x in Hand(s.pc);
    assert Left(r) == multiset(s.heap) by {
      assert Hand(r.pc) == [];
    }
    assert Output(s, Publish(Accepted)) == [x];
  }

  lemma QuietPublish(s: State, reply: Reply)
    requires HandLeads(s)
    ensures QuietOk(s, Publish(reply))
  {
    if s.pc.Holding? && reply.Accepted? {
      QuietAccept(s);
    } else {
      var r := Step(s, Publish(reply));
      assert r.heap == s.heap && Hand(r.pc) == Hand(s.pc) && Output(s, Publish(reply)) == [];
    }
  }

  lemma QuietRequeue(s: State)
    requires IsHeap(s.heap) && HandLeads(s)
    ensures QuietOk(s, Requeue)
  {
    if s.pc.Failed? {
      PushCorrect(s.heap, s.pc.item);
      assert multiset(Hand(s.pc)) == multiset{s.pc.item};
    }
  }

  lemma QuietStep(s: State, e: Event)
    requires IsHeap(s.heap) && HandLeads(s) && !e.Arrive?
    ensures QuietOk(s, e)
  {
    match e
    case Check => QuietCheck(s);
    case Publish(reply) => QuietPublish(s, reply);
    case Requeue => QuietRequeue(s);
    case _ => QuietIdle(s, e);
  }

  lemma QuietIdle(s: State, e: Event)
    requires HandLeads(s) && (e.CloseDone? || e.Wake? || e.Stop?)
    ensures QuietOk(s, e)
  {
    IdleKeeps(s, e);
    assert multiset(Output(s, e)) == multiset{};
  }

  lemma IdleKeeps(s: State, e: Event)
    requires e.CloseDone? || e.Wake? || e.Stop?
    ensures Output(s, e) == [] && Left(Step(s, e)) == Left(s)
    ensures Step(s, e).heap == s.heap && (Step(s, e).pc.Holding? <==> s.pc.Holding?)
    ensures s.pc.Holding? ==> Step(s, e).pc == s.pc
  {
    match e
    case CloseDone => assert Step(s, e).pc == s.pc;
    case Wake => assert Hand(Step(s, e).pc) == Hand(s.pc);
    case Stop => assert Hand(Step(s, e).pc) == Hand(s.pc);
  }

  lemma Prepend(now: seq<Item>, later: seq<Item>, rest: multiset<Item>)
    requires |now| <= 1 && LeavesInOrder(later) && multiset(later) <= rest
    requires forall y :: y in now ==> Preferred(y, rest)
    ensures LeavesInOrder(now + later)
    ensures multiset(now + later) <= multiset(now) + rest
  {
    if now == [] {
      assert now + later == later;
    } else {
      assert now == [now[0]];
      forall y | y in multiset(later)
        ensures y in rest
      {
        assert multiset(later)[y] <= rest[y];
      }
      assert now[0] in now;
      HeadFirst(now[0], later);
    }
  }

  lemma {:induction false} QuietRun(s: State, es: seq<Event>)
    requires Inv(s) && HandLeads(s) && Arrivals(es) == []
    ensures LeavesInOrder(NewlyPublished(s, es))
    ensures multiset(NewlyPublished(s, es)) <= Left(s)
    decreases |es|
  {
    if es != [] {
      var e, r := es[0], Step(s, es[0]);
      assert !e.Arrive?;
      QuietStep(s, e);
      StepKeepsInv(s, e);
      QuietRun(r, es[1..]);
      Prepend(Output(s, e), NewlyPublished(r, es[1..]), Left(r));
    }
  }

  /** Whatever happens from here on but arrivals, it is published in priority order. */
  ghost predicate QuietlyInOrder(s: State) {
    forall es :: Arrivals(es) == [] ==> LeavesInOrder(NewlyPublished(s, es))
  }

  /** Two publishes with a pop between them; nothing arrives. */
  function TwoPublishes(): seq<Event> {
    [Publish(Accepted), Check, Publish(Accepted)]
  }

  lemma TwoPublishesRun(s: State)
    requires s.pc.Holding? && s.heap != []
    ensures Arrivals(TwoPublishes()) == [] && NewlyPublished(s, TwoPublishes()) == [s.pc.item, s.heap[0]]
  {
    var es := TwoPublishes();
    assert es[1..] == [Check, Publish(Accepted)] && es[1..][1..] == [Publish(Accepted)] && es[1..][1..][1..] == [];
    var s1 := Step(s, Publish(Accepted));
    var s2 := Step(s1, Check);
    assert s2.pc == Holding(s.heap[0]);
    assert NewlyPublished(s2, es[1..][1..]) == [s.heap[0]];
  }

  lemma BeatenHandIsOutOfOrder(s: State)
    requires IsHeap(s.heap) && s.pc.Holding? && !Preferred(s.pc.item, multiset(s.heap))
    ensures !LeavesInOrder(NewlyPublished(s, TwoPublishes())) && Arrivals(TwoPublishes()) == []
  {
    var y :| y in multiset(s.heap) && Below(s.pc.item, y);
    RootPreferred(s.heap);
    TwoPublishesRun(s);
    var out := NewlyPublished(s, TwoPublishes());
    assert Below(out[0], out[1]);
  }

  /**
   * After any run, every stretch without arrivals publishes in priority order, whatever fails in it,
   * if and only if the loop is not about to publish an item that something queued beats.
   */
  lemma QuietStretchInOrder(items: seq<Item>, before: seq<Event>)
    requires IsHeap(items)
    ensures var s := Run(Begin(items), before);
      QuietlyInOrder(s) <==> (s.pc.Holding? ==> Preferred(s.pc.item, multiset(s.heap)))
  {
    RunKeepsInv(Begin(items), before);
    var s := Run(Begin(items), before);
    if HandLeads(s) {
      forall es | Arrivals(es) == []
        ensures LeavesInOrder(NewlyPublished(s, es))
      {
        QuietRun(s, es);
      }
    } else {
      BeatenHandIsOutOfOrder(s);
    }
  }

  /**
   * In plain numbers: if the item in hand has a level at least as high as everything queued, and at
   * its level is not later, then without arrivals no level rises in what is published, and at one
   * level no instant falls.
   */
  lemma QuietStretchByLevel(items: seq<Item>, before: seq<Event>, es: seq<Event>, i: nat, j: nat)
    requires IsHeap(items) && Arrivals(es) == []
    requires var s := Run(Begin(items), before);
      && (s.pc.Holding? ==>
        forall y :: y in multiset(s.heap) ==>
          s.pc.item.level >= y.level && (s.pc.item.level == y.level ==> s.pc.item.createdAt <= y.createdAt))
      && i < j < |NewlyPublished(s, es)|
    ensures var out := NewlyPublished(Run(Begin(items), before), es);
      && out[i].level >= out[j].level
      && (out[i].level == out[j].level ==> out[i].createdAt <= out[j].createdAt)
  {
    var s := Run(Begin(items), before);
    if s.pc.Holding? {
      PreferredMeans(s.pc.item, multiset(s.heap));
    }
    QuietStretchInOrder(items, before);
    LeavesInOrderMeans(NewlyPublished(s, es));
  }

  /** A better item that arrives while a worse one is in hand is published after it. */
  lemma WorseInHand(l: Item, h: Item)
    requires Below(l, h)
    ensures var s := Run(Begin([]), [Arrive(l), Check, Arrive(h)]);
      NewlyPublished(s, TwoPublishes()) == [l, h]
  {
    assert Push([], l) == [l] && Pop([l]) == [] && Push([], h) == [h];
    RunTwo(Begin([]), Arrive(l), Check);
    var s2 := Run(Begin([]), [Arrive(l), Check]);
    assert s2.pc == Holding(l) && s2.heap == [];
    assert [Arrive(l), Check, Arrive(h)] == [Arrive(l), Check] + [Arrive(h)];
    RunConcat(Begin([]), [Arrive(l), Check], [Arrive(h)]);
    RunOne(s2, Arrive(h));
    var s := Step(s2, Arrive(h));
    assert s.pc == Holding(l) && s.heap == [h];
    TwoPublishesRun(s);
  }

  // ---------------------------------------------------------------- re-queueing

  function ArriveAll(xs: seq<Item>): (es: seq<Event>)
    ensures |es| == |xs|
  {
    seq(|xs|, i requires 0 <= i < |xs| => Arrive(xs[i]))
  }

  /** The state after `xs` have been pushed from outside, one by one. */
  lemma {:induction false} ArriveAllCorrect(s: State, xs: seq<Item>)
    requires IsHeap(s.heap)
    ensures var r := Run(s, ArriveAll(xs));
      && r == s.(heap := r.heap, arrived := s.arrived + xs)
      && IsHeap(r.heap)
      && multiset(r.heap) == multiset(s.heap) + multiset(xs)
    decreases |xs|
  {
    if xs != [] {
      PushCorrect(s.heap, xs[0]);
      assert ArriveAll(xs)[1..] == ArriveAll(xs[1..]);
      ArriveAllCorrect(Step(s, Arrive(xs[0])), xs[1..]);
      HeadItems(xs);
      assert s.arrived + xs == s.arrived + [xs[0]] + xs[1..];
    }
  }

  /** One failed round: pop, publish with an error, push back, with arrivals in every gap. */
  function FailedRound(a: seq<Item>, b: seq<Item>, c: seq<Item>, reply: Reply): seq<Event> {
    [Check] + ArriveAll(a) + [Publish(reply)] + ArriveAll(b) + [Requeue] + ArriveAll(c)
  }

  /**
   * A failed round changes the queue only by the arrivals, and the next item out has the failed
   * item's key, or beats it and is new.
   */
  lemma RequeueNeutral(s: State, a: seq<Item>, b: seq<Item>, c: seq<Item>, reply: Reply)
    requires Inv(s) && s.pc.AtPop? && s.heap != [] && !reply.Accepted?
    ensures var x, r := s.heap[0], Run(s, FailedRound(a, b, c, reply));
      && r.pc.AtPop? && r.published == s.published && r.heap != []
      && multiset(r.heap) == multiset(s.heap) + multiset(a) + multiset(b) + multiset(c)
      && (KeyOf(r.heap[0]) == KeyOf(x) || (Below(x, r.heap[0]) && r.heap[0] in a + b + c))
  {
    FailedRoundRun(s, a, b, c, reply);
    var s2 := FailedPublish(s, a, reply);
    var r := PushedBack(s2, b, c);
    assert multiset(r.heap) == multiset(s.heap) + multiset(a) + multiset(b) + multiset(c);
    assert multiset(a + b + c) == multiset(a) + multiset(b) + multiset(c);
    assert |multiset(r.heap)| == |r.heap|;
    NextOut(s.heap, r.heap, a + b + c);
  }

  lemma FailedPublish(s: State, a: seq<Item>, reply: Reply) returns (r: State)
    requires IsHeap(s.heap) && s.pc.AtPop? && s.heap != [] && !reply.Accepted?
    ensures r == Step(Run(Step(s, Check), ArriveAll(a)), Publish(reply))
    ensures r.pc == Failed(s.heap[0]) && r.published == s.published && IsHeap(r.heap)
    ensures multiset(r.heap) + multiset{s.heap[0]} == multiset(s.heap) + multiset(a)
  {
    PopCorrect(s.heap);
    var s1 := s.(heap := Pop(s.heap), pc := Holding(s.heap[0]));
    assert s1 == Step(s, Check);
    r := FailedAfter(s1, a, reply);
  }

  lemma FailedAfter(s: State, a: seq<Item>, reply: Reply) returns (r: State)
    requires IsHeap(s.heap) && s.pc.Holding? && !reply.Accepted?
    ensures r == Step(Run(s, ArriveAll(a)), Publish(reply))
    ensures r.pc == Failed(s.pc.item) && r.published == s.published && IsHeap(r.heap)
    ensures multiset(r.heap) == multiset(s.heap) + multiset(a)
  {
    ArriveAllCorrect(s, a);
    r := Step(Run(s, ArriveAll(a)), Publish(reply));
  }

  lemma PushedBack(s: State, b: seq<Item>, c: seq<Item>) returns (r: State)
    requires IsHeap(s.heap) && s.pc.Failed?
    ensures r == Run(Step(Run(s, ArriveAll(b)), Requeue), ArriveAll(c))
    ensures r.pc.AtPop? && r.published == s.published && IsHeap(r.heap)
    ensures multiset(r.heap) == multiset(s.heap) + multiset{s.pc.item} + multiset(b) + multiset(c)
  {
    ArriveAllCorrect(s, b);
    var s3 := Run(s, ArriveAll(b));
    PushCorrect(s3.heap, s.pc.item);
    var s4 := Step(s3, Requeue);
    ArriveAllCorrect(s4, c);
    r := Run(s4, ArriveAll(c));
  }

  lemma FailedRoundRun(s: State, a: seq<Item>, b: seq<Item>, c: seq<Item>, reply: Reply)
    ensures Run(s, FailedRound(a, b, c, reply)) ==
      Run(Step(Run(Step(Run(Step(s, Check), ArriveAll(a)), Publish(reply)), ArriveAll(b)), Requeue), ArriveAll(c))
  {
    var e1 := [Check] + ArriveAll(a);
    var e2 := e1 + [Publish(reply)] + ArriveAll(b);
    RunConcat(s, [Check], ArriveAll(a));
    RunConcat(s, e1, [Publish(reply)]);
    RunConcat(s, e1 + [Publish(reply)], ArriveAll(b));
    RunConcat(s, e2, [Requeue]);
    RunConcat(s, e2 + [Requeue], ArriveAll(c));
  }

  lemma NextOut(before: seq<Item>, after: seq<Item>, added: seq<Item>)
    requires IsHeap(before) && IsHeap(after) && before != [] && after != []
    requires multiset(after) == multiset(before) + multiset(added)
    ensures KeyOf(after[0]) == KeyOf(before[0]) || (Below(before[0], after[0]) && after[0] in added)
  {
    RootPreferred(before);
    RootPreferred(after);
    assert before[0] in multiset(after) && after[0] in multiset(after);
    if after[0] !in added {
      assert after[0] in multiset(before);
    }
  }
}
