/**
 * The gateway at the grain of single steps under the queue's mutex: thread 0 runs the drain loop,
 * every other thread is a request handler that pushes. The drainer machine, whose queue operations
 * are atomic, does everything that this can do and nothing else is needed.
 */
module GatewayThreads {
  import opened PriorityOrder
  import opened QueueProtocol
  import opened QueueSafety
  import Drainer
  import QueueTheorems

  /** Where the drain loop stands, outside and inside its calls of the queue. */
  datatype Loop = AtLoop | InPop | Publishing(item: Item) | Requeueing(item: Item) | InPush(item: Item) | Ended

  datatype Gateway = Gateway(q: QueueProtocol.State, loop: Loop, published: seq<Item>)

  datatype Action =
    | Handler(t: nat, item: Item)
    | HandlerStep(t: nat)
    | HelperGo(h: nat)
    | Cancel
    | Drain(pickDone: bool, reply: Drainer.Reply)

  function Init(handlers: nat): Gateway {
    Gateway(QueueProtocol.Init(handlers + 1), AtLoop, [])
  }

  function CallQueue(g: Gateway, op: Op, loop: Loop): Gateway {
    g.(q := QueueProtocol.Step(g.q, Call(0, op)), loop := loop)
  }

  /** A step inside a call of the queue; when the call returns the loop goes on to `after`. */
  function StepQueue(g: Gateway, pickDone: bool, after: Loop): Gateway {
    var r := QueueProtocol.Step(g.q, ThreadStep(0, pickDone));
    g.(q := r, loop := if |r.threads| > 0 && r.threads[0] == Idle then after else g.loop)
  }

  function AfterPop(pc: Pc): Loop {
    if pc.Leave? && pc.result.Got? then Publishing(pc.result.item) else Ended
  }

  function StepDrain(g: Gateway, pickDone: bool, reply: Drainer.Reply): Gateway {
    match g.loop
    case AtLoop => CallQueue(g, OpPop, InPop)
    case InPop => if |g.q.threads| > 0 then StepQueue(g, pickDone, AfterPop(g.q.threads[0])) else g
    case Publishing(x) =>
      if reply.Accepted? then g.(loop := AtLoop, published := g.published + [x])
      else g.(loop := Requeueing(x))
    case Requeueing(x) => CallQueue(g, OpPush(x), InPush(x))
    case InPush(_) => StepQueue(g, pickDone, AtLoop)
    case Ended => g
  }

  function Step(g: Gateway, a: Action): Gateway {
    match a
    case Handler(t, x) => if t == 0 then g else g.(q := QueueProtocol.Step(g.q, Call(t, OpPush(x))))
    case HandlerStep(t) => if t == 0 then g else g.(q := QueueProtocol.Step(g.q, ThreadStep(t, false)))
    case HelperGo(h) => g.(q := QueueProtocol.Step(g.q, HelperStep(h)))
    case Cancel => g.(q := QueueProtocol.Step(g.q, Close))
    case Drain(pickDone, reply) => StepDrain(g, pickDone, reply)
  }

  function Run(g: Gateway, acts: seq<Action>): Gateway
    decreases |acts|
  {
    if acts == [] then g else Run(Step(g, acts[0]), acts[1..])
  }

  // ---------------------------------------------------------------- abstraction

  /** Items that handlers have enqueued, in the order in which that took effect. */
  function Arrived(h: Trace): seq<Item> {
    match h
    case Start => []
    case Then(past, e) => NextArrived(Arrived(past), e)
  }

  function NextArrived(a: seq<Item>, e: Event): seq<Item> {
    if e.Commit? && e.t != 0 && e.effect.Enqueue? then a + [e.effect.item] else a
  }

  /** How many had arrived when the drainer last saw the queue empty. */
  function Seen(h: Trace): nat {
    match h
    case Start => 0
    case Then(past, e) => NextSeen(Seen(past), Arrived(past), e)
  }

  function NextSeen(seen: nat, a: seq<Item>, e: Event): nat {
    if e == SawEmpty(0) then |a| else seen
  }

  function PopPc(pc: Pc, seen: nat): Drainer.Pc {
    match pc
    case PopUnlock(_) => Drainer.Blocked(seen)
    case PopSelect(_) => Drainer.Blocked(seen)
    case PopDoneLock => Drainer.Blocked(seen)
    case PopBroadcast => Drainer.Blocked(seen)
    case SiftRoot(x, _, _) => Drainer.Holding(x)
    case Leave(r, _) => if r.Got? then Drainer.Holding(r.item) else Drainer.Returned(seen)
    case _ => Drainer.AtPop
  }

  function AbsPc(loop: Loop, pc: Pc, seen: nat): Drainer.Pc {
    match loop
    case AtLoop => Drainer.AtPop
    case InPop => PopPc(pc, seen)
    case Publishing(x) => Drainer.Holding(x)
    case Requeueing(x) => Drainer.Failed(x)
    case InPush(x) => if pc.PushLock? || pc.PushAppend? then Drainer.Failed(x) else Drainer.AtPop
    case Ended => Drainer.Returned(seen)
  }

  function Abs(g: Gateway): Drainer.State
    requires |g.q.threads| > 0
  {
    Drainer.State(
      Layout(g.q.history),
      AbsPc(g.loop, g.q.threads[0], Seen(g.q.history)),
      Arrived(g.q.history),
      g.published,
      g.q.closed)
  }

  /** What a step amounts to for the drainer machine. */
  function Meaning(g: Gateway, a: Action): seq<Drainer.Event> {
    match a
    case HandlerStep(t) =>
      if 0 < t < |g.q.threads| && g.q.threads[t].PushAppend? then [Drainer.Arrive(g.q.threads[t].item)] else []
    case Cancel => [Drainer.CloseDone]
    case Drain(pickDone, reply) => if |g.q.threads| == 0 then [] else DrainMeaning(g, g.q.threads[0], pickDone, reply)
    case _ => []
  }

  function DrainMeaning(g: Gateway, pc: Pc, pickDone: bool, reply: Drainer.Reply): seq<Drainer.Event> {
    match g.loop
    case InPop =>
      if (pc.PopCheck? && g.q.items == []) || pc.Root? then [Drainer.Check]
      else if pc.PopSelect? && !pickDone && pc.h < |g.q.helpers| && g.q.helpers[pc.h] == HDone then [Drainer.Wake]
      else if pc.PopBroadcast? then [Drainer.Stop]
      else []
    case Publishing(_) => [Drainer.Publish(reply)]
    case InPush(_) => if pc.PushAppend? then [Drainer.Requeue] else []
    case _ => []
  }

  // ---------------------------------------------------------------- invariant

  predicate InBlockingPop(pc: Pc) {
    match pc
    case PopLock => true
    case PopCheck => true
    case PopUnlock(_) => true
    case PopSelect(_) => true
    case PopRelock => true
    case PopDoneLock => true
    case PopBroadcast => true
    case Root(b) => b
    case SiftRoot(_, _, b) => b
    case Leave(_, b) => b
    case _ => false
  }

  predicate PushOf(pc: Pc, x: Item) {
    QueueProtocol.InPush(pc) && pc.item == x
  }

  predicate LoopOk(loop: Loop, pc: Pc) {
    match loop
    case InPop => InBlockingPop(pc)
    case InPush(x) => PushOf(pc, x)
    case _ => pc == Idle
  }

  /** The drain loop is in the call that it made, and handlers do nothing but push. */
  ghost predicate ThreadsOk(threads: seq<Pc>, loop: Loop) {
    && |threads| > 0
    && LoopOk(loop, threads[0])
    && forall t :: 0 < t < |threads| ==> threads[t] == Idle || QueueProtocol.InPush(threads[t])
  }

  ghost predicate Ok(g: Gateway) {
    Inv(g.q) && ThreadsOk(g.q.threads, g.loop)
  }

  // ---------------------------------------------------------------- what a move does to the abstraction

  lemma {:induction false} BroadcastSameArrivals(s: QueueProtocol.State)
    ensures Arrived(Broadcast(s).history) == Arrived(s.history) && Seen(Broadcast(s).history) == Seen(s.history)
    decreases |s.waiters|
  {
    if s.waiters != [] {
      BroadcastSameArrivals(Signal(s));
    }
  }

  lemma AwakenSameArrivals(s: QueueProtocol.State, w: Wake)
    ensures Arrived(Awaken(s, w).history) == Arrived(s.history) && Seen(Awaken(s, w).history) == Seen(s.history)
  {
    if w.WakeAll? {
      BroadcastSameArrivals(s);
    }
  }

  function NoteArrived(a: seq<Item>, n: Note): seq<Item> {
    if n.Silent? then a else NextArrived(a, n.event)
  }

  function NoteSeen(seen: nat, a: seq<Item>, n: Note): nat {
    if n.Silent? then seen else NextSeen(seen, a, n.event)
  }

  /** An enabled move changes the abstract parts as its note says, and a disabled one nothing. */
  ghost predicate Advances(s: QueueProtocol.State, t: nat, m: Move, r: QueueProtocol.State)
    requires t < |s.threads|
  {
    if Enabled(s, m) then
      && r.threads == s.threads[t := m.pc] && r.closed == s.closed
      && Layout(r.history) == NoteLayout(Layout(s.history), m.note)
      && Arrived(r.history) == NoteArrived(Arrived(s.history), m.note)
      && Seen(r.history) == NoteSeen(Seen(s.history), Arrived(s.history), m.note)
    else r == s
  }

  lemma PlaceAdvances(s: QueueProtocol.State, t: nat, m: Move, owner: Owner)
    requires t < |s.threads| && m.Go?
    ensures var r := Jot(Awaken(Place(s, t, m, owner), m.wake), m.note);
      && r.threads == s.threads[t := m.pc] && r.closed == s.closed
      && Layout(r.history) == NoteLayout(Layout(s.history), m.note)
      && Arrived(r.history) == NoteArrived(Arrived(s.history), m.note)
      && Seen(r.history) == NoteSeen(Seen(s.history), Arrived(s.history), m.note)
  {
    AwakenWakes(Place(s, t, m, owner), m.wake);
    AwakenSameArrivals(Place(s, t, m, owner), m.wake);
  }

  lemma ApplyAdvances(s: QueueProtocol.State, t: nat, m: Move)
    requires LockInv(s) && t < |s.threads| && !m.Fatal? && MoveLocks(s.threads[t], s.items, m)
    ensures Advances(s, t, m, Apply(s, t, m))
  {
    if Enabled(s, m) {
      PlaceAdvances(s, t, m, OwnerAfter(s, t, m));
      assert Holds(s.threads[t]) <==> s.owner == Thread(t);
    }
  }

  // ---------------------------------------------------------------- simulation

  /** What the invariant of the queue says about a step of thread `t`. */
  ghost predicate StepFacts(s: QueueProtocol.State, t: nat, m: Move, r: QueueProtocol.State)
    requires t < |s.threads|
  {
    && Advances(s, t, m, r)
    && !m.Fatal?
    && (s.threads[t].PopCheck? || s.threads[t].Root? ==> Layout(s.history) == s.items)
    && (s.threads[t].Root? ==> s.items != [])
    && (s.threads[t].PopBroadcast? ==> s.closed)
  }

  lemma ThreadStepFacts(s: QueueProtocol.State, t: nat, pickDone: bool)
    requires Inv(s) && t < |s.threads|
    ensures StepFacts(s, t, ThreadMove(s, t, pickDone), QueueProtocol.Step(s, ThreadStep(t, pickDone)))
  {
    ThreadMoveGood(s, t, pickDone);
    ApplyAdvances(s, t, ThreadMove(s, t, pickDone));
    assert PcOk(s.threads[t], |s.items|, s.closed);
    assert Holds(s.threads[t]) <==> s.owner == Thread(t);
  }

  lemma CallFacts(s: QueueProtocol.State, t: nat, op: Op)
    requires Inv(s) && t < |s.threads| && s.threads[t] == Idle
    ensures StepFacts(s, t, Noted(Entry(op), s.items, Invoke(t, op)), QueueProtocol.Step(s, Call(t, op)))
  {
    CallMoveGood(s, t, op);
    ApplyAdvances(s, t, Noted(Entry(op), s.items, Invoke(t, op)));
  }

  /** The step does in the abstract what `es` do. */
  ghost predicate Matches(g: Gateway, r: Gateway, es: seq<Drainer.Event>) {
    && |g.q.threads| > 0
    && ThreadsOk(r.q.threads, r.loop)
    && Abs(r) == Drainer.Run(Abs(g), es)
  }

  lemma HandlerMatches(g: Gateway, t: nat, r: Gateway)
    requires ThreadsOk(g.q.threads, g.loop) && 0 < t < |g.q.threads| && r == g.(q := r.q)
    requires StepFacts(g.q, t, PushMove(t, g.q.threads[t], g.q.items), r.q)
    ensures Matches(g, r, if g.q.threads[t].PushAppend? then [Drainer.Arrive(g.q.threads[t].item)] else [])
  {
    if g.q.threads[t].PushAppend? {
      Drainer.RunOne(Abs(g), Drainer.Arrive(g.q.threads[t].item));
    }
  }

  lemma CallMatches(g: Gateway, t: nat, op: Op, r: Gateway)
    requires ThreadsOk(g.q.threads, g.loop) && t < |g.q.threads| && g.q.threads[t] == Idle
    requires StepFacts(g.q, t, Noted(Entry(op), g.q.items, Invoke(t, op)), r.q) && r.published == g.published
    requires t > 0 ==> op.OpPush? && r.loop == g.loop
    requires t == 0 ==>
      || (g.loop.AtLoop? && op.OpPop? && r.loop == InPop)
      || (g.loop.Requeueing? && op == OpPush(g.loop.item) && r.loop == InPush(g.loop.item))
    ensures Matches(g, r, [])
  {
  }

  lemma AppendMatches(g: Gateway, r: Gateway)
    requires ThreadsOk(g.q.threads, g.loop) && g.loop.InPush? && r.published == g.published
    requires g.q.threads[0].PushAppend? && StepFacts(g.q, 0, PushMove(0, g.q.threads[0], g.q.items), r.q)
    requires |r.q.threads| > 0 && r.loop == g.loop
    ensures Matches(g, r, [Drainer.Requeue])
  {
    Drainer.RunOne(Abs(g), Drainer.Requeue);
  }

  lemma PushMatches(g: Gateway, r: Gateway)
    requires ThreadsOk(g.q.threads, g.loop) && g.loop.InPush? && r.published == g.published
    requires !g.q.threads[0].PushAppend? && StepFacts(g.q, 0, PushMove(0, g.q.threads[0], g.q.items), r.q)
    requires |r.q.threads| > 0 && r.loop == if r.q.threads[0] == Idle then AtLoop else g.loop
    ensures Matches(g, r, [])
  {
  }

  /** The move of a thread inside Pop, before the root is removed. */
  function WaitMove(s: QueueProtocol.State, pc: Pc, pickDone: bool): Move {
    var ready := pc.PopSelect? && pc.h < |s.helpers| && s.helpers[pc.h] == HDone;
    PopMove(0, pc, s.items, s.closed, ready, pickDone, |s.helpers|)
  }

  ghost predicate Waiting(g: Gateway, r: Gateway, pickDone: bool) {
    && ThreadsOk(g.q.threads, g.loop) && g.loop.InPop? && r == g.(q := r.q)
    && StepFacts(g.q, 0, WaitMove(g.q, g.q.threads[0], pickDone), r.q)
  }

  lemma CheckMatches(g: Gateway, r: Gateway, pickDone: bool)
    requires Waiting(g, r, pickDone) && g.q.threads[0].PopCheck?
    ensures Matches(g, r, if g.q.items == [] then [Drainer.Check] else [])
  {
    Drainer.RunOne(Abs(g), Drainer.Check);
  }

  lemma SelectMatches(g: Gateway, r: Gateway, pickDone: bool)
    requires Waiting(g, r, pickDone) && g.q.threads[0].PopSelect?
    ensures Matches(g, r, DrainMeaning(g, g.q.threads[0], pickDone, Drainer.Accepted))
  {
    Drainer.RunOne(Abs(g), Drainer.Wake);
  }

  lemma GiveUpMatches(g: Gateway, r: Gateway, pickDone: bool)
    requires Waiting(g, r, pickDone) && g.q.threads[0].PopBroadcast?
    ensures Matches(g, r, [Drainer.Stop])
  {
    Drainer.RunOne(Abs(g), Drainer.Stop);
  }

  lemma SilentMatches(g: Gateway, r: Gateway, pickDone: bool)
    requires Waiting(g, r, pickDone)
    requires var pc := g.q.threads[0]; !pc.PopCheck? && !pc.PopSelect? && !pc.PopBroadcast?
    requires var pc := g.q.threads[0]; !pc.Root? && !pc.SiftRoot? && !pc.Leave?
    ensures Matches(g, r, [])
  {
  }

  /** The step of Pop that removes the root. */
  lemma RootMatches(g: Gateway, r: Gateway)
    requires ThreadsOk(g.q.threads, g.loop) && g.loop.InPop? && g.q.threads[0].Root? && r == g.(q := r.q)
    requires StepFacts(g.q, 0, RootMove(0, g.q.threads[0], g.q.items), r.q)
    ensures Matches(g, r, [Drainer.Check])
  {
    Drainer.RunOne(Abs(g), Drainer.Check);
  }

  /** A step inside Pop after that, of which the last is the return. */
  lemma SiftMatches(g: Gateway, r: Gateway)
    requires ThreadsOk(g.q.threads, g.loop) && g.loop.InPop? && r.published == g.published
    requires g.q.threads[0].SiftRoot? || g.q.threads[0].Leave?
    requires StepFacts(g.q, 0, RootMove(0, g.q.threads[0], g.q.items), r.q)
    requires |r.q.threads| > 0 && r.loop == if r.q.threads[0] == Idle then AfterPop(g.q.threads[0]) else g.loop
    ensures Matches(g, r, [])
  {
  }

  ghost predicate Simulated(g: Gateway, a: Action) {
    Matches(g, Step(g, a), Meaning(g, a))
  }

  lemma DrainKeepsQueue(g: Gateway, pickDone: bool, reply: Drainer.Reply)
    requires Inv(g.q)
    ensures Inv(StepDrain(g, pickDone, reply).q)
  {
    match g.loop
    case AtLoop => StepKeepsInv(g.q, Call(0, OpPop));
    case Requeueing(x) => StepKeepsInv(g.q, Call(0, OpPush(x)));
    case InPop => StepKeepsInv(g.q, ThreadStep(0, pickDone));
    case InPush(_) => StepKeepsInv(g.q, ThreadStep(0, pickDone));
    case _ =>
  }

  lemma StepKeepsQueue(g: Gateway, a: Action)
    requires Inv(g.q)
    ensures Inv(Step(g, a).q)
  {
    match a
    case Handler(t, x) => StepKeepsInv(g.q, Call(t, OpPush(x)));
    case HandlerStep(t) => StepKeepsInv(g.q, ThreadStep(t, false));
    case HelperGo(h) => StepKeepsInv(g.q, HelperStep(h));
    case Cancel => StepKeepsInv(g.q, Close);
    case Drain(pickDone, reply) => DrainKeepsQueue(g, pickDone, reply);
  }

  lemma HandlerCallSim(g: Gateway, t: nat, x: Item)
    requires Ok(g)
    ensures Simulated(g, Handler(t, x))
  {
    if 0 < t < |g.q.threads| && g.q.threads[t] == Idle {
      CallFacts(g.q, t, OpPush(x));
      CallMatches(g, t, OpPush(x), Step(g, Handler(t, x)));
    }
  }

  lemma HandlerStepSim(g: Gateway, t: nat)
    requires Ok(g)
    ensures Simulated(g, HandlerStep(t))
  {
    if 0 < t < |g.q.threads| {
      ThreadStepFacts(g.q, t, false);
      if QueueProtocol.InPush(g.q.threads[t]) {
        HandlerMatches(g, t, Step(g, HandlerStep(t)));
      }
    }
  }

  lemma HelperSim(g: Gateway, h: nat)
    requires ThreadsOk(g.q.threads, g.loop)
    ensures Simulated(g, HelperGo(h))
  {
    if h < |g.q.helpers| {
      HelperSameArrivals(g.q, h);
    }
  }

  lemma HelperSameArrivals(s: QueueProtocol.State, h: nat)
    requires h < |s.helpers|
    ensures var r := StepHelper(s, h);
      && r.threads == s.threads && r.closed == s.closed && Layout(r.history) == Layout(s.history)
      && Arrived(r.history) == Arrived(s.history) && Seen(r.history) == Seen(s.history)
  {
    var e := if s.helpers[h] == HEnlist then Parked(h) else ClosedWaiting(h);
    assert StepHelper(s, h).history == s.history || StepHelper(s, h).history == Then(s.history, e);
  }

  lemma CancelSim(g: Gateway)
    requires Ok(g)
    ensures Simulated(g, Cancel)
  {
    Drainer.RunOne(Abs(g), Drainer.CloseDone);
  }

  lemma DrainCallSim(g: Gateway, pickDone: bool, reply: Drainer.Reply)
    requires Ok(g) && (g.loop.AtLoop? || g.loop.Requeueing?)
    ensures Simulated(g, Drain(pickDone, reply))
  {
    var op := if g.loop.AtLoop? then OpPop else OpPush(g.loop.item);
    CallFacts(g.q, 0, op);
    CallMatches(g, 0, op, Step(g, Drain(pickDone, reply)));
  }

  lemma PublishSim(g: Gateway, pickDone: bool, reply: Drainer.Reply)
    requires Ok(g) && (g.loop.Publishing? || g.loop.Ended?)
    ensures Simulated(g, Drain(pickDone, reply))
  {
    Drainer.RunOne(Abs(g), Drainer.Publish(reply));
  }

  lemma PushSim(g: Gateway, pickDone: bool, reply: Drainer.Reply)
    requires Ok(g) && g.loop.InPush?
    ensures Simulated(g, Drain(pickDone, reply))
  {
    ThreadStepFacts(g.q, 0, pickDone);
    PushStepMatches(g, pickDone, reply);
  }

  lemma PushStepMatches(g: Gateway, pickDone: bool, reply: Drainer.Reply)
    requires ThreadsOk(g.q.threads, g.loop) && g.loop.InPush?
    requires StepFacts(g.q, 0, ThreadMove(g.q, 0, pickDone), QueueProtocol.Step(g.q, ThreadStep(0, pickDone)))
    ensures Simulated(g, Drain(pickDone, reply))
  {
    if g.q.threads[0].PushAppend? {
      AppendMatches(g, Step(g, Drain(pickDone, reply)));
    } else {
      PushMatches(g, Step(g, Drain(pickDone, reply)));
    }
  }

  lemma WaitSim(g: Gateway, pickDone: bool, reply: Drainer.Reply)
    requires Ok(g) && g.loop.InPop?
    requires !g.q.threads[0].Root? && !g.q.threads[0].SiftRoot? && !g.q.threads[0].Leave?
    ensures Simulated(g, Drain(pickDone, reply))
  {
    ThreadStepFacts(g.q, 0, pickDone);
    WaitStepMatches(g, pickDone, reply);
  }

  lemma WaitStepMatches(g: Gateway, pickDone: bool, reply: Drainer.Reply)
    requires ThreadsOk(g.q.threads, g.loop) && g.loop.InPop?
    requires !g.q.threads[0].Root? && !g.q.threads[0].SiftRoot? && !g.q.threads[0].Leave?
    requires StepFacts(g.q, 0, ThreadMove(g.q, 0, pickDone), QueueProtocol.Step(g.q, ThreadStep(0, pickDone)))
    ensures Simulated(g, Drain(pickDone, reply))
  {
    var pc, r := g.q.threads[0], Step(g, Drain(pickDone, reply));
    assert ThreadMove(g.q, 0, pickDone) == WaitMove(g.q, pc, pickDone);
    assert r.q.threads[0] != Idle;
    if pc.PopCheck? {
      CheckMatches(g, r, pickDone);
    } else if pc.PopSelect? {
      SelectMatches(g, r, pickDone);
    } else if pc.PopBroadcast? {
      GiveUpMatches(g, r, pickDone);
    } else {
      SilentMatches(g, r, pickDone);
    }
  }

  lemma RootSim(g: Gateway, pickDone: bool, reply: Drainer.Reply)
    requires Ok(g) && g.loop.InPop?
    requires g.q.threads[0].Root? || g.q.threads[0].SiftRoot? || g.q.threads[0].Leave?
    ensures Simulated(g, Drain(pickDone, reply))
  {
    ThreadStepFacts(g.q, 0, pickDone);
    if g.q.threads[0].Root? {
      RootMatches(g, Step(g, Drain(pickDone, reply)));
    } else {
      SiftMatches(g, Step(g, Drain(pickDone, reply)));
    }
  }

  lemma StepSim(g: Gateway, a: Action)
    requires Ok(g)
    ensures Simulated(g, a)
  {
    match a
    case Handler(t, x) => HandlerCallSim(g, t, x);
    case HandlerStep(t) => HandlerStepSim(g, t);
    case HelperGo(h) => HelperSim(g, h);
    case Cancel => CancelSim(g);
    case Drain(pickDone, reply) =>
      if g.loop.AtLoop? || g.loop.Requeueing? {
        DrainCallSim(g, pickDone, reply);
      } else if g.loop.InPush? {
        PushSim(g, pickDone, reply);
      } else if g.loop.InPop? {
        if g.q.threads[0].Root? || g.q.threads[0].SiftRoot? || g.q.threads[0].Leave? {
          RootSim(g, pickDone, reply);
        } else {
          WaitSim(g, pickDone, reply);
        }
      } else {
        PublishSim(g, pickDone, reply);
      }
  }

  function MeaningOf(g: Gateway, acts: seq<Action>): seq<Drainer.Event>
    decreases |acts|
  {
    if acts == [] then [] else Meaning(g, acts[0]) + MeaningOf(Step(g, acts[0]), acts[1..])
  }

  lemma {:induction false} RunSim(g: Gateway, acts: seq<Action>)
    requires Ok(g)
    ensures Ok(Run(g, acts))
    ensures Abs(Run(g, acts)) == Drainer.Run(Abs(g), MeaningOf(g, acts))
    decreases |acts|
  {
    if acts != [] {
      StepSim(g, acts[0]);
      StepKeepsQueue(g, acts[0]);
      RunSim(Step(g, acts[0]), acts[1..]);
      Drainer.RunConcat(Abs(g), Meaning(g, acts[0]), MeaningOf(Step(g, acts[0]), acts[1..]));
    }
  }

  /** Every interleaving of the real steps is a run of the drainer machine. */
  lemma GatewayRefinesDrainer(handlers: nat, acts: seq<Action>)
    ensures var g := Run(Init(handlers), acts);
      && |g.q.threads| > 0
      && Abs(g) == Drainer.Run(Drainer.Begin([]), MeaningOf(Init(handlers), acts))
  {
    RunSim(Init(handlers), acts);
  }

  lemma EndedMeans(g: Gateway)
    requires Ok(g) && g.loop.Ended?
    ensures Abs(g).pc == Drainer.Returned(Seen(g.q.history)) && Abs(g).arrived == Arrived(g.q.history)
    ensures multiset(Abs(g).heap) == multiset(g.q.items)
  {
    QueueTheorems.SettledItems(g.q);
  }

  /**
   * So the drainer's theorems hold for the threads. When the loop has ended, the done channel is
   * closed, and what it published is exactly what handlers had enqueued when it last saw the queue
   * empty; the later arrivals are exactly what the slice holds.
   */
  lemma EndedCleanly(handlers: nat, acts: seq<Action>)
    requires Run(Init(handlers), acts).loop.Ended?
    ensures var g := Run(Init(handlers), acts);
      var a, k := Arrived(g.q.history), Seen(g.q.history);
      && g.q.closed && k <= |a|
      && multiset(g.published) == multiset(a[..k])
      && multiset(g.q.items) == multiset(a[k..])
  {
    RunSim(Init(handlers), acts);
    EndedMeans(Run(Init(handlers), acts));
    Drainer.CleanStop([], MeaningOf(Init(handlers), acts));
  }
}
