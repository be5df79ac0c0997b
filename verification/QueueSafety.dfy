/** What holds in every state that some interleaving reaches. */
module QueueSafety {
  import opened PriorityOrder
  import opened Heap
  import opened QueueProtocol

  // ---------------------------------------------------------------- waking

  /** Waking sleepers changes their list and the history, and no effect in it. */
  ghost predicate OnlyWakes(s: State, r: State) {
    && r == s.(waiters := r.waiters, history := r.history)
    && (forall t :: PhaseIn(r.history, t) == PhaseIn(s.history, t))
    && Layout(r.history) == Layout(s.history)
    && Bag(r.history) == Bag(s.history)
    && DoneClosed(r.history) == DoneClosed(s.history)
    && Legal(r.history) == Legal(s.history)
  }

  lemma SignalKeepsNaps(s: State)
    requires NapInv(s)
    ensures NapInv(Signal(s))
  {
    if s.waiters != [] {
      var g, r := s.waiters[0], Signal(s);
      assert g in s.waiters;
      forall h | 0 <= h < |r.helpers|
        ensures NapOk(r.helpers[h], h in r.waiters, NapIn(r.history, h))
      {
        assert h != g ==> (h in s.waiters <==> h in r.waiters);
      }
    }
  }

  lemma {:induction false} BroadcastWakes(s: State)
    ensures OnlyWakes(s, Broadcast(s))
    ensures NapInv(s) ==> NapInv(Broadcast(s))
    decreases |s.waiters|
  {
    if s.waiters != [] {
      if NapInv(s) {
        SignalKeepsNaps(s);
      }
      BroadcastWakes(Signal(s));
    }
  }

  lemma AwakenWakes(s: State, w: Wake)
    ensures OnlyWakes(s, Awaken(s, w))
    ensures NapInv(s) ==> NapInv(Awaken(s, w))
  {
    if w.WakeAll? {
      BroadcastWakes(s);
    } else if w.WakeOne? && NapInv(s) {
      SignalKeepsNaps(s);
    }
  }

  // ---------------------------------------------------------------- one move of a thread

  /** A move takes the mutex from outside, gives it up from inside, and touches the slice inside only. */
  predicate MoveLocks(pc: Pc, items: seq<Item>, m: Move) {
    m.Go? ==>
      match m.lock
      case Keep => (Holds(pc) <==> Holds(m.pc)) && (!Holds(pc) ==> m.items == items)
      case Take => !Holds(pc) && Holds(m.pc) && m.items == items
      case Give => Holds(pc) && !Holds(m.pc) && m.items == items
  }

  predicate MoveOk(m: Move, closed: bool) {
    !m.Fatal? && (m.Go? ==> PcOk(m.pc, |m.items|, closed))
  }

  function NotePhase(p: Phase, n: Note, t: nat): Phase {
    if n.Silent? then p else NextPhase(p, n.event, t)
  }

  /** The event is about thread `t`, and follows from where it stands. */
  predicate MovePhase(t: nat, m: Move, p: Phase) {
    m.Go? ==>
      && PhaseOk(m.pc, NotePhase(p, m.note, t))
      && (m.note.Note? ==> AboutThread(m.note.event, t))
  }

  predicate AboutThread(e: Event, t: nat) {
    match e
    case Invoke(u, _) => u == t
    case SawEmpty(u) => u == t
    case Commit(u, _) => u == t
    case Return(u, _) => u == t
    case _ => false
  }

  /** The event agrees with the slice that the effects so far have produced. */
  ghost predicate Justified(l: seq<Item>, closed: bool, e: Event) {
    match e
    case Commit(_, Dequeue(x)) => l != [] && x == l[0]
    case Commit(_, FoundEmpty) => l == []
    case Commit(_, GaveUp) => closed
    case SawEmpty(_) => l == []
    case _ => true
  }

  predicate NoEffect(e: Event) {
    !e.Commit? && !e.SawEmpty?
  }

  function NoteLayout(l: seq<Item>, n: Note): seq<Item> {
    if n.Silent? then l else LayoutAfter(l, n.event)
  }

  /** The settled slice changes exactly as the event says. */
  ghost predicate MoveSettles(pc: Pc, items: seq<Item>, closed: bool, m: Move) {
    m.Go? ==>
      && SettledBy(m.pc, m.items) == NoteLayout(SettledBy(pc, items), m.note)
      && (m.note.Note? ==> Justified(SettledBy(pc, items), closed, m.note.event))
      && (m.note.Note? && !Holds(pc) ==> NoEffect(m.note.event))
      && (m.note.Note? ==> !m.note.event.CloseDone?)
  }

  ghost predicate GoodMove(s: State, t: nat, m: Move)
    requires t < |s.threads|
  {
    && MoveLocks(s.threads[t], s.items, m)
    && MoveOk(m, s.closed)
    && MovePhase(t, m, PhaseIn(s.history, t))
    && MoveSettles(s.threads[t], s.items, s.closed, m)
    && (m.Go? && m.wake != NoWake ==> !m.spawn)
  }

  lemma PushMoveGood(t: nat, pc: Pc, items: seq<Item>, closed: bool, p: Phase)
    requires PcOk(pc, |items|, closed) && PhaseOk(pc, p)
    ensures var m := PushMove(t, pc, items);
      MoveLocks(pc, items, m) && MoveOk(m, closed) && MovePhase(t, m, p) && MoveSettles(pc, items, closed, m)
  {
  }

  lemma TryMoveGood(t: nat, pc: Pc, items: seq<Item>, closed: bool, p: Phase)
    requires PcOk(pc, |items|, closed) && PhaseOk(pc, p)
    ensures var m := TryMove(t, pc, items);
      MoveLocks(pc, items, m) && MoveOk(m, closed) && MovePhase(t, m, p) && MoveSettles(pc, items, closed, m)
  {
  }

  lemma PopMoveGood(t: nat, pc: Pc, items: seq<Item>, closed: bool, ready: bool, pickDone: bool, next: nat, p: Phase)
    requires PcOk(pc, |items|, closed) && PhaseOk(pc, p)
    ensures var m := PopMove(t, pc, items, closed, ready, pickDone, next);
      MoveLocks(pc, items, m) && MoveOk(m, closed) && MovePhase(t, m, p) && MoveSettles(pc, items, closed, m)
  {
  }

  lemma RootMoveGood(t: nat, pc: Pc, items: seq<Item>, closed: bool, p: Phase)
    requires PcOk(pc, |items|, closed) && PhaseOk(pc, p)
    ensures var m := RootMove(t, pc, items);
      MoveLocks(pc, items, m) && MoveOk(m, closed) && MovePhase(t, m, p) && MoveSettles(pc, items, closed, m)
  {
  }

  lemma ThreadMoveGood(s: State, t: nat, pickDone: bool)
    requires t < |s.threads| && PcInv(s) && PhaseInv(s)
    ensures GoodMove(s, t, ThreadMove(s, t, pickDone))
  {
    var pc, p := s.threads[t], PhaseIn(s.history, t);
    if InPush(pc) {
      PushMoveGood(t, pc, s.items, s.closed, p);
    } else if pc.TryLock? || pc.TryCheck? {
      TryMoveGood(t, pc, s.items, s.closed, p);
    } else if pc.Root? || pc.SiftRoot? || pc.Leave? {
      RootMoveGood(t, pc, s.items, s.closed, p);
    } else {
      var ready := pc.PopSelect? && pc.h < |s.helpers| && s.helpers[pc.h] == HDone;
      PopMoveGood(t, pc, s.items, s.closed, ready, pickDone, |s.helpers|, p);
    }
  }

  lemma CallMoveGood(s: State, t: nat, op: Op)
    requires t < |s.threads| && s.threads[t] == Idle && PhaseInv(s)
    ensures GoodMove(s, t, Noted(Entry(op), s.items, Invoke(t, op)))
  {
  }

  // ---------------------------------------------------------------- any good move keeps the invariant

  predicate Enabled(s: State, m: Move) {
    m.Go? && (m.lock.Take? ==> s.owner.Free?)
  }

  function OwnerAfter(s: State, t: nat, m: Move): Owner
    requires m.Go?
  {
    match m.lock case Keep => s.owner case Take => Thread(t) case Give => Free
  }

  lemma PlaceKeepsLock(s: State, t: nat, m: Move)
    requires LockInv(s) && t < |s.threads| && Enabled(s, m) && MoveLocks(s.threads[t], s.items, m)
    ensures LockInv(Place(s, t, m, OwnerAfter(s, t, m)))
  {
  }

  lemma PlaceKeepsPcs(s: State, t: nat, m: Move)
    requires LockInv(s) && PcInv(s) && t < |s.threads| && Enabled(s, m)
    requires MoveLocks(s.threads[t], s.items, m) && MoveOk(m, s.closed)
    ensures PcInv(Place(s, t, m, OwnerAfter(s, t, m)))
  {
  }

  lemma ApplyKeepsLock(s: State, t: nat, m: Move)
    requires !s.crashed && LockInv(s) && PcInv(s) && t < |s.threads|
    requires MoveLocks(s.threads[t], s.items, m) && MoveOk(m, s.closed)
    ensures var r := Apply(s, t, m); !r.crashed && LockInv(r) && PcInv(r)
  {
    if Enabled(s, m) {
      PlaceKeepsLock(s, t, m);
      PlaceKeepsPcs(s, t, m);
      AwakenWakes(Place(s, t, m, OwnerAfter(s, t, m)), m.wake);
    }
  }

  lemma ApplyKeepsPhases(s: State, t: nat, m: Move)
    requires PhaseInv(s) && t < |s.threads| && MovePhase(t, m, PhaseIn(s.history, t))
    ensures PhaseInv(Apply(s, t, m))
  {
    if m.Go? {
      AwakenWakes(Place(s, t, m, OwnerAfter(s, t, m)), m.wake);
    }
  }

  lemma ApplyKeepsNaps(s: State, t: nat, m: Move)
    requires NapInv(s) && t < |s.threads|
    requires m.Go? && m.note.Note? ==> AboutThread(m.note.event, t)
    ensures NapInv(Apply(s, t, m))
  {
    if m.Go? {
      AwakenWakes(Place(s, t, m, OwnerAfter(s, t, m)), m.wake);
    }
  }

  lemma CommitKeepsHistory(h: Trace, e: Event)
    requires HistoryInv(h) && e.Commit? && Justified(Layout(h), DoneClosed(h), e)
    ensures HistoryInv(Then(h, e))
  {
    var l := Layout(h);
    match e.effect
    case Enqueue(x) => PushCorrect(l, x);
    case Dequeue(x) =>
      PopCorrect(l);
      assert Bag(Then(h, e)) == multiset(l) - multiset{x};
    case _ =>
  }

  lemma JustifiedKeepsHistory(h: Trace, e: Event)
    requires HistoryInv(h) && Justified(Layout(h), DoneClosed(h), e)
    ensures HistoryInv(Then(h, e))
  {
    if e.Commit? {
      CommitKeepsHistory(h, e);
    } else {
      assert Layout(Then(h, e)) == Layout(h) && Bag(Then(h, e)) == Bag(h);
    }
  }

  /** The settled slice moves on only with the event of the thread that owns the mutex. */
  lemma PlaceSettles(s: State, t: nat, m: Move)
    requires LockInv(s) && t < |s.threads| && Enabled(s, m)
    requires MoveLocks(s.threads[t], s.items, m) && MoveSettles(s.threads[t], s.items, s.closed, m)
    ensures Settled(Place(s, t, m, OwnerAfter(s, t, m))) == NoteLayout(Settled(s), m.note)
    ensures m.note.Note? ==> Justified(Settled(s), s.closed, m.note.event)
  {
  }

  lemma ApplyKeepsData(s: State, t: nat, m: Move)
    requires LockInv(s) && DataInv(s) && HistoryInv(s.history) && t < |s.threads|
    requires MoveLocks(s.threads[t], s.items, m) && MoveSettles(s.threads[t], s.items, s.closed, m)
    ensures var r := Apply(s, t, m); DataInv(r) && HistoryInv(r.history)
  {
    if Enabled(s, m) {
      PlaceSettles(s, t, m);
      var q := Place(s, t, m, OwnerAfter(s, t, m));
      AwakenWakes(q, m.wake);
      var r := Awaken(q, m.wake);
      if m.note.Note? {
        JustifiedKeepsHistory(r.history, m.note.event);
      }
    }
  }

  // ---------------------------------------------------------------- every step, every run

  lemma HelperKeepsLock(s: State, h: nat)
    requires !s.crashed && LockInv(s) && h < |s.helpers|
    ensures LockInv(StepHelper(s, h)) && !StepHelper(s, h).crashed
  {
  }

  lemma EnlistKeepsNaps(s: State, h: nat)
    requires NapInv(s) && h < |s.helpers| && s.helpers[h] == HEnlist
    ensures NapInv(StepHelper(s, h))
  {
    var r := StepHelper(s, h);
    assert forall g :: g in r.waiters <==> g in s.waiters || g == h;
    assert h !in s.waiters;
    forall g | 0 <= g < |r.helpers|
      ensures NapOk(r.helpers[g], g in r.waiters, NapIn(r.history, g))
    {
    }
  }

  lemma HelperKeepsNaps(s: State, h: nat)
    requires NapInv(s) && h < |s.helpers|
    ensures NapInv(StepHelper(s, h))
  {
    if s.helpers[h] == HEnlist {
      EnlistKeepsNaps(s, h);
    } else {
      var r := StepHelper(s, h);
      assert NapOk(r.helpers[h], h in r.waiters, NapIn(r.history, h));
    }
  }

  lemma HelperKeepsPhases(s: State, h: nat)
    requires PhaseInv(s) && h < |s.helpers|
    ensures PhaseInv(StepHelper(s, h))
  {
  }

  lemma HelperKeepsSettled(s: State, h: nat)
    requires LockInv(s) && h < |s.helpers|
    ensures Settled(StepHelper(s, h)) == Settled(s)
  {
    assert HelperHolds(s.helpers[h]) <==> s.owner == Helper(h);
  }

  lemma HelperKeepsHistory(s: State, h: nat)
    requires HistoryInv(s.history) && h < |s.helpers|
    ensures var r := StepHelper(s, h);
      HistoryInv(r.history) && Layout(r.history) == Layout(s.history) && DoneClosed(r.history) == DoneClosed(s.history)
  {
    var e := if s.helpers[h] == HEnlist then Parked(h) else ClosedWaiting(h);
    JustifiedKeepsHistory(s.history, e);
    assert StepHelper(s, h).history == s.history || StepHelper(s, h).history == Then(s.history, e);
  }

  lemma HelperKeepsPcs(s: State, h: nat)
    requires PcInv(s) && h < |s.helpers|
    ensures PcInv(StepHelper(s, h)) && StepHelper(s, h).closed == s.closed
  {
    var r := StepHelper(s, h);
    assert r.threads == s.threads && r.items == s.items && r.closed == s.closed;
  }

  lemma HelperKeepsInv(s: State, h: nat)
    requires Inv(s) && h < |s.helpers|
    ensures Inv(StepHelper(s, h))
  {
    HelperKeepsLock(s, h);
    HelperKeepsPcs(s, h);
    HelperKeepsNaps(s, h);
    HelperKeepsPhases(s, h);
    HelperKeepsSettled(s, h);
    HelperKeepsHistory(s, h);
  }

  lemma MoveKeepsInv(s: State, t: nat, m: Move)
    requires Inv(s) && t < |s.threads| && GoodMove(s, t, m)
    ensures Inv(Apply(s, t, m))
  {
    ApplyKeepsLock(s, t, m);
    ApplyKeepsPhases(s, t, m);
    ApplyKeepsNaps(s, t, m);
    ApplyKeepsData(s, t, m);
  }

  lemma StepKeepsInv(s: State, a: Action)
    requires Inv(s)
    ensures Inv(Step(s, a))
  {
    match a
    case Call(t, op) =>
      if t < |s.threads| && s.threads[t] == Idle {
        CallMoveGood(s, t, op);
        MoveKeepsInv(s, t, Noted(Entry(op), s.items, Invoke(t, op)));
      }
    case ThreadStep(t, pickDone) =>
      if t < |s.threads| {
        ThreadMoveGood(s, t, pickDone);
        MoveKeepsInv(s, t, ThreadMove(s, t, pickDone));
      }
    case HelperStep(h) =>
      if h < |s.helpers| {
        HelperKeepsInv(s, h);
      }
    case Close =>
  }

  lemma {:induction false} RunKeepsInv(s: State, acts: seq<Action>)
    requires Inv(s)
    ensures Inv(Run(s, acts))
    decreases |acts|
  {
    if acts != [] {
      StepKeepsInv(s, acts[0]);
      RunKeepsInv(Step(s, acts[0]), acts[1..]);
    }
  }

  lemma Reachable(n: nat, acts: seq<Action>)
    ensures Inv(Run(Init(n), acts))
  {
    RunKeepsInv(Init(n), acts);
  }
}
