/**
 * The queue as threads see it: a mutex, a condition variable, and a blocking Pop that parks a
 * helper goroutine. Every transition is one step of one thread, so a sequence of actions is an
 * interleaving; an action that is not possible leaves the state as it is.
 */
module QueueProtocol {
  import opened PriorityOrder
  import opened Heap

  datatype Op = OpPush(item: Item) | OpTryPop | OpPop

  datatype Result = NoResult | Got(item: Item) | Nothing

  /** What an operation does to the queue at the one step where it takes effect. */
  datatype Effect = Enqueue(item: Item) | Dequeue(item: Item) | FoundEmpty | GaveUp

  datatype Event =
    | Invoke(t: nat, op: Op)
    | SawEmpty(t: nat)
    | Commit(t: nat, effect: Effect)
    | Return(t: nat, result: Result)
    | CloseDone
    | Parked(h: nat)
    | Notified(h: nat)
    | ClosedWaiting(h: nat)

  /** Where a thread stands; `blocking` tells Pop from TryPop in the code that they share. */
  datatype Pc =
    | Idle
    | PushLock(item: Item)
    | PushAppend(item: Item)
    | PushSift(item: Item, i: nat)
    | PushUnlock(item: Item)
    | PushSignal(item: Item)
    | TryLock
    | TryCheck
    | PopLock
    | PopCheck
    | PopUnlock(h: nat)
    | PopSelect(h: nat)
    | PopRelock
    | PopDoneLock
    | PopBroadcast
    | Root(blocking: bool)
    | SiftRoot(item: Item, i: nat, blocking: bool)
    | Leave(result: Result, blocking: bool)

  /** A helper goroutine: lock, Wait (enlist, unlock, sleep, relock), unlock, close its channel. */
  datatype HelperPc = HLock | HEnlist | HUnlock | HSleep | HRelock | HRelease | HClose | HDone

  datatype Owner = Free | Thread(t: nat) | Helper(h: nat)

  /** Everything that has happened, oldest first. */
  datatype Trace = Start | Then(past: Trace, last: Event)

  datatype State = State(
    items: seq<Item>,
    owner: Owner,
    threads: seq<Pc>,
    helpers: seq<HelperPc>,
    waiters: seq<nat>, // the condition variable's list, in ticket order
    closed: bool, // the done channel
    crashed: bool, // a Go run-time failure
    history: Trace
  )

  datatype Action =
    | Call(t: nat, op: Op)
    | ThreadStep(t: nat, pickDone: bool)
    | HelperStep(h: nat)
    | Close

  function Init(n: nat): State {
    State([], Free, seq(n, _ => Idle), [], [], false, false, Start)
  }

  // ---------------------------------------------------------------- steps

  datatype Lock = Keep | Take | Give

  datatype Wake = NoWake | WakeOne | WakeAll

  datatype Note = Silent | Note(event: Event)

  /** What the code of a thread does next; `Blocked` waits, `Fatal` is an index out of range. */
  datatype Move =
    | Blocked
    | Fatal
    | Go(pc: Pc, items: seq<Item>, lock: Lock, wake: Wake, spawn: bool, note: Note)

  function Local(pc: Pc, items: seq<Item>, lock: Lock): Move {
    Go(pc, items, lock, NoWake, false, Silent)
  }

  function Noted(pc: Pc, items: seq<Item>, event: Event): Move {
    Go(pc, items, Keep, NoWake, false, Note(event))
  }

  function PushMove(t: nat, pc: Pc, items: seq<Item>): Move {
    match pc
    case PushLock(x) => Local(PushAppend(x), items, Take)
    case PushAppend(x) => Noted(PushSift(x, |items|), items + [x], Commit(t, Enqueue(x)))
    case PushSift(x, i) =>
      if i >= |items| then Fatal
      else if Rises(items, i) then Local(PushSift(x, Parent(i)), Swap(items, i, Parent(i)), Keep)
      else Local(PushUnlock(x), items, Keep)
    case PushUnlock(x) => Local(PushSignal(x), items, Give)
    case PushSignal(_) => Go(Idle, items, Keep, WakeOne, false, Note(Return(t, NoResult)))
    case _ => Blocked
  }

  function TryMove(t: nat, pc: Pc, items: seq<Item>): Move {
    match pc
    case TryLock => Local(TryCheck, items, Take)
    case TryCheck =>
      if items == [] then Noted(Leave(Nothing, false), items, Commit(t, FoundEmpty))
      else Local(Root(false), items, Keep)
    case _ => Blocked
  }

  /**
   * The loop of Pop. `next` numbers the helper about to be spawned, `ready` says whether the
   * channel of the current helper is closed, and `pickDone` which branch `select` looks at.
   */
  function PopMove(t: nat, pc: Pc, items: seq<Item>, closed: bool, ready: bool, pickDone: bool, next: nat): Move {
    match pc
    case PopLock => Local(PopCheck, items, Take)
    case PopCheck =>
      if items == [] then Go(PopUnlock(next), items, Keep, NoWake, true, Note(SawEmpty(t)))
      else Local(Root(true), items, Keep)
    case PopUnlock(h) => Local(PopSelect(h), items, Give)
    case PopSelect(_) =>
      if pickDone then (if closed then Local(PopDoneLock, items, Keep) else Blocked)
      else if ready then Local(PopRelock, items, Keep) else Blocked
    case PopRelock => Local(PopCheck, items, Take)
    case PopDoneLock => Local(PopBroadcast, items, Take)
    case PopBroadcast => Go(Leave(Nothing, true), items, Keep, WakeAll, false, Note(Commit(t, GaveUp)))
    case _ => Blocked
  }

  /** The internal pop and the deferred unlock, shared by TryPop and Pop. */
  function RootMove(t: nat, pc: Pc, items: seq<Item>): Move {
    match pc
    case Root(b) =>
      if items == [] then Fatal
      else
        var x, rest := items[0], Beheaded(items);
        Noted(if rest == [] then Leave(Got(x), b) else SiftRoot(x, 0, b), rest, Commit(t, Dequeue(x)))
    case SiftRoot(x, i, b) =>
      if i >= |items| then Fatal
      else
        var best := Best(items, i);
        if best == i then Local(Leave(Got(x), b), items, Keep)
        else Local(SiftRoot(x, best, b), Swap(items, i, best), Keep)
    case Leave(r, _) => Go(Idle, items, Give, NoWake, false, Note(Return(t, r)))
    case _ => Blocked
  }

  predicate InPush(pc: Pc) {
    pc.PushLock? || pc.PushAppend? || pc.PushSift? || pc.PushUnlock? || pc.PushSignal?
  }

  function ThreadMove(s: State, t: nat, pickDone: bool): Move
    requires t < |s.threads|
  {
    var pc := s.threads[t];
    if InPush(pc) then PushMove(t, pc, s.items)
    else if pc.TryLock? || pc.TryCheck? then TryMove(t, pc, s.items)
    else if pc.Root? || pc.SiftRoot? || pc.Leave? then RootMove(t, pc, s.items)
    else
      var ready := pc.PopSelect? && pc.h < |s.helpers| && s.helpers[pc.h] == HDone;
      PopMove(t, pc, s.items, s.closed, ready, pickDone, |s.helpers|)
  }

  function Log(s: State, e: Event): State {
    s.(history := Then(s.history, e))
  }

  function Signal(s: State): State {
    if s.waiters == [] then s
    else Log(s, Notified(s.waiters[0])).(waiters := s.waiters[1..])
  }

  function Broadcast(s: State): State
    decreases |s.waiters|
  {
    if s.waiters == [] then s else Broadcast(Signal(s))
  }

  function Awaken(s: State, w: Wake): State {
    match w
    case NoWake => s
    case WakeOne => Signal(s)
    case WakeAll => Broadcast(s)
  }

  function Jot(s: State, n: Note): State {
    if n.Silent? then s else Log(s, n.event)
  }

  /** Everything that a move changes except the condition variable and the history. */
  function Place(s: State, t: nat, m: Move, owner: Owner): State
    requires t < |s.threads| && m.Go?
  {
    s.(
      items := m.items,
      owner := owner,
      threads := s.threads[t := m.pc],
      helpers := if m.spawn then s.helpers + [HLock] else s.helpers)
  }

  /** Locking waits for a free mutex; unlocking a free one is fatal, and Go does not ask who holds it. */
  function Apply(s: State, t: nat, m: Move): State
    requires t < |s.threads|
  {
    match m
    case Blocked => s
    case Fatal => s.(crashed := true)
    case Go(_, _, lock, wake, _, note) =>
      if lock.Take? && !s.owner.Free? then s
      else if lock.Give? && s.owner.Free? then s.(crashed := true)
      else
        var owner := match lock case Keep => s.owner case Take => Thread(t) case Give => Free;
        Jot(Awaken(Place(s, t, m, owner), wake), note)
  }

  function GotoHelper(s: State, h: nat, pc: HelperPc, owner: Owner): State
    requires h < |s.helpers|
  {
    s.(helpers := s.helpers[h := pc], owner := owner)
  }

  function HelperUnlock(s: State, h: nat, pc: HelperPc): State
    requires h < |s.helpers|
  {
    if s.owner.Free? then s.(crashed := true) else GotoHelper(s, h, pc, Free)
  }

  function StepHelper(s: State, h: nat): State
    requires h < |s.helpers|
  {
    match s.helpers[h]
    case HLock => if s.owner.Free? then GotoHelper(s, h, HEnlist, Helper(h)) else s
    case HEnlist => Log(GotoHelper(s, h, HUnlock, s.owner), Parked(h)).(waiters := s.waiters + [h])
    case HUnlock => HelperUnlock(s, h, HSleep)
    case HSleep => if h in s.waiters then s else GotoHelper(s, h, HRelock, s.owner)
    case HRelock => if s.owner.Free? then GotoHelper(s, h, HRelease, Helper(h)) else s
    case HRelease => HelperUnlock(s, h, HClose)
    case HClose => Log(GotoHelper(s, h, HDone, s.owner), ClosedWaiting(h))
    case HDone => s
  }

  function Entry(op: Op): Pc {
    match op
    case OpPush(x) => PushLock(x)
    case OpTryPop => TryLock
    case OpPop => PopLock
  }

  function Step(s: State, a: Action): State {
    if s.crashed then s
    else match a
      case Call(t, op) =>
        if t < |s.threads| && s.threads[t] == Idle then Apply(s, t, Noted(Entry(op), s.items, Invoke(t, op))) else s
      case ThreadStep(t, pickDone) => if t < |s.threads| then Apply(s, t, ThreadMove(s, t, pickDone)) else s
      case HelperStep(h) => if h < |s.helpers| then StepHelper(s, h) else s
      case Close => if s.closed then s else Log(s, CloseDone).(closed := true)
  }

  function Run(s: State, acts: seq<Action>): State
    decreases |acts|
  {
    if acts == [] then s else Run(Step(s, acts[0]), acts[1..])
  }

  // ---------------------------------------------------------------- what a history must look like

  /** Progress of a thread through its current call. */
  datatype Phase = Out | Called(op: Op, sawEmpty: bool) | Done(op: Op, effect: Effect) | Broken

  predicate Fits(op: Op, sawEmpty: bool, effect: Effect) {
    match effect
    case Enqueue(x) => op == OpPush(x)
    case Dequeue(_) => !op.OpPush?
    case FoundEmpty => op.OpTryPop?
    case GaveUp => op.OpPop? && sawEmpty
  }

  function ResultOf(effect: Effect): Result {
    match effect
    case Enqueue(_) => NoResult
    case Dequeue(x) => Got(x)
    case FoundEmpty => Nothing
    case GaveUp => Nothing
  }

  function NextPhase(p: Phase, e: Event, t: nat): Phase {
    match e
    case Invoke(u, op) => if u != t then p else if p.Out? then Called(op, false) else Broken
    case SawEmpty(u) => if u != t then p else if p.Called? && p.op.OpPop? then Called(p.op, true) else Broken
    case Commit(u, f) => if u != t then p else if p.Called? && Fits(p.op, p.sawEmpty, f) then Done(p.op, f) else Broken
    case Return(u, r) => if u != t then p else if p.Done? && r == ResultOf(p.effect) then Out else Broken
    case _ => p
  }

  /** Broken unless thread `t` only ever called, took effect once and returned that effect's result. */
  function PhaseIn(h: Trace, t: nat): Phase {
    match h case Start => Out case Then(past, e) => NextPhase(PhaseIn(past, t), e, t)
  }

  datatype Nap = Fresh | Asleep | Awake | Finished | Wrong

  function NextNap(p: Nap, e: Event, h: nat): Nap {
    match e
    case Parked(g) => if g != h then p else if p.Fresh? then Asleep else Wrong
    case Notified(g) => if g != h then p else if p.Asleep? then Awake else Wrong
    case ClosedWaiting(g) => if g != h then p else if p.Awake? then Finished else Wrong
    case _ => p
  }

  /** Wrong unless helper `h` parked once, was then notified once, and then closed its channel once. */
  function NapIn(h: Trace, g: nat): Nap {
    match h case Start => Fresh case Then(past, e) => NextNap(NapIn(past, g), e, g)
  }

  predicate DoneClosed(h: Trace) {
    h.Then? && (DoneClosed(h.past) || h.last.CloseDone?)
  }

  function BagAfter(bag: multiset<Item>, e: Event): multiset<Item> {
    match e
    case Commit(_, Enqueue(x)) => bag + multiset{x}
    case Commit(_, Dequeue(x)) => bag - multiset{x}
    case _ => bag
  }

  /** The items of a sequential priority queue after the effects of `h` in their order. */
  function Bag(h: Trace): multiset<Item> {
    match h case Start => multiset{} case Then(past, e) => BagAfter(Bag(past), e)
  }

  ghost predicate LegalNext(bag: multiset<Item>, doneClosed: bool, e: Event) {
    match e
    case Commit(_, Dequeue(x)) => x in bag && Preferred(x, bag)
    case Commit(_, FoundEmpty) => bag == multiset{}
    case Commit(_, GaveUp) => doneClosed
    case SawEmpty(_) => bag == multiset{}
    case _ => true
  }

  /** The effects, in the order of their steps, are those of a sequential priority queue. */
  ghost predicate Legal(h: Trace) {
    h.Then? ==> Legal(h.past) && LegalNext(Bag(h.past), DoneClosed(h.past), h.last)
  }

  function LayoutAfter(l: seq<Item>, e: Event): seq<Item> {
    match e
    case Commit(_, Enqueue(x)) => Push(l, x)
    case Commit(_, Dequeue(_)) => if l == [] then l else Pop(l)
    case _ => l
  }

  /** The very slice that the same effects produce when nothing runs concurrently. */
  function Layout(h: Trace): seq<Item> {
    match h case Start => [] case Then(past, e) => LayoutAfter(Layout(past), e)
  }

  // ---------------------------------------------------------------- invariant

  predicate Holds(pc: Pc) {
    match pc
    case PushAppend(_) => true
    case PushSift(_, _) => true
    case PushUnlock(_) => true
    case TryCheck => true
    case PopCheck => true
    case PopUnlock(_) => true
    case PopBroadcast => true
    case Root(_) => true
    case SiftRoot(_, _, _) => true
    case Leave(_, _) => true
    case _ => false
  }

  predicate HelperHolds(pc: HelperPc) {
    pc == HEnlist || pc == HUnlock || pc == HRelease
  }

  /** Exactly the owner is inside a critical section. */
  ghost predicate LockInv(s: State) {
    && (forall t :: 0 <= t < |s.threads| ==> (Holds(s.threads[t]) <==> s.owner == Thread(t)))
    && (forall h :: 0 <= h < |s.helpers| ==> (HelperHolds(s.helpers[h]) <==> s.owner == Helper(h)))
    && (s.owner.Thread? ==> s.owner.t < |s.threads|)
    && (s.owner.Helper? ==> s.owner.h < |s.helpers|)
  }

  /** Nobody but the owner relies on the slice, and Pop gives up only after the done channel closed. */
  predicate PcOk(pc: Pc, n: nat, closed: bool) {
    match pc
    case PushSift(_, i) => i < n
    case Root(_) => n > 0
    case SiftRoot(_, i, _) => i < n
    case PopDoneLock => closed
    case PopBroadcast => closed
    case _ => true
  }

  ghost predicate PcInv(s: State) {
    forall t :: 0 <= t < |s.threads| ==> PcOk(s.threads[t], |s.items|, s.closed)
  }

  predicate PhaseOk(pc: Pc, p: Phase) {
    match pc
    case Idle => p == Out
    case PushLock(x) => p == Called(OpPush(x), false)
    case PushAppend(x) => p == Called(OpPush(x), false)
    case PushSift(x, _) => p == Done(OpPush(x), Enqueue(x))
    case PushUnlock(x) => p == Done(OpPush(x), Enqueue(x))
    case PushSignal(x) => p == Done(OpPush(x), Enqueue(x))
    case TryLock => p == Called(OpTryPop, false)
    case TryCheck => p == Called(OpTryPop, false)
    case PopLock => p == Called(OpPop, false)
    case PopCheck => p.Called? && p.op == OpPop
    case Root(b) => p.Called? && p.op == (if b then OpPop else OpTryPop)
    case SiftRoot(x, _, b) => p == Done(if b then OpPop else OpTryPop, Dequeue(x))
    case Leave(r, b) => p.Done? && p.op == (if b then OpPop else OpTryPop) && r == ResultOf(p.effect)
    case _ => p == Called(OpPop, true)
  }

  ghost predicate PhaseInv(s: State) {
    forall t :: 0 <= t < |s.threads| ==> PhaseOk(s.threads[t], PhaseIn(s.history, t))
  }

  predicate NapOk(pc: HelperPc, listed: bool, p: Nap) {
    match pc
    case HLock => !listed && p.Fresh?
    case HEnlist => !listed && p.Fresh?
    case HUnlock => if listed then p.Asleep? else p.Awake?
    case HSleep => if listed then p.Asleep? else p.Awake?
    case HDone => !listed && p.Finished?
    case _ => !listed && p.Awake?
  }

  ghost predicate NapInv(s: State) {
    && (forall h :: 0 <= h < |s.helpers| ==> NapOk(s.helpers[h], h in s.waiters, NapIn(s.history, h)))
    && (forall h :: h >= |s.helpers| ==> NapIn(s.history, h) == Fresh)
    && (forall i :: 0 <= i < |s.waiters| ==> s.waiters[i] < |s.helpers|)
    && (forall i, j :: 0 <= i < j < |s.waiters| ==> s.waiters[i] != s.waiters[j])
  }

  /** The slice as it will be when a thread standing at `pc` has run its sift. */
  function SettledBy(pc: Pc, items: seq<Item>): seq<Item> {
    match pc
    case PushSift(_, i) => if i < |items| then SiftUp(items, i) else items
    case SiftRoot(_, i, _) => if i < |items| then SiftDown(items, i) else items
    case _ => items
  }

  function Settled(s: State): seq<Item> {
    if s.owner.Thread? && s.owner.t < |s.threads| then SettledBy(s.threads[s.owner.t], s.items) else s.items
  }

  ghost predicate DataInv(s: State) {
    Settled(s) == Layout(s.history) && s.closed == DoneClosed(s.history)
  }

  ghost predicate HistoryInv(h: Trace) {
    IsHeap(Layout(h)) && multiset(Layout(h)) == Bag(h) && Legal(h)
  }

  ghost predicate Inv(s: State) {
    && !s.crashed
    && LockInv(s)
    && PcInv(s)
    && PhaseInv(s)
    && NapInv(s)
    && DataInv(s)
    && HistoryInv(s.history)
  }
}
