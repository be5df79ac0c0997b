/** What the condition variable does for a blocked Pop: exactly when a signal reaches it, and what follows. */
module QueueWaking {
  import opened PriorityOrder
  import opened QueueProtocol
  import opened QueueSafety
  import QueueTheorems

  /** Helper `h` has parked and nobody has notified it yet. */
  predicate Sleeps(s: State, h: nat) {
    NapIn(s.history, h) == Asleep
  }

  lemma SleepersAreListed(s: State)
    requires NapInv(s)
    ensures forall h: nat :: Sleeps(s, h) <==> h in s.waiters
  {
    forall h: nat
      ensures Sleeps(s, h) <==> h in s.waiters
    {
      if h < |s.helpers| {
        assert NapOk(s.helpers[h], h in s.waiters, NapIn(s.history, h));
      }
    }
  }

  lemma SignalStep(s: State, t: nat, pick: bool)
    requires !s.crashed && t < |s.threads| && s.threads[t].PushSignal?
    ensures Step(s, ThreadStep(t, pick)) ==
      Log(Signal(s.(threads := s.threads[t := Idle])), Return(t, NoResult))
  {
  }

  /** Only the head of the list, if there is one, is awake afterwards. */
  ghost predicate WakesHead(s: State, r: State) {
    forall h: nat :: Sleeps(s, h) && !Sleeps(r, h) <==> s.waiters != [] && h == s.waiters[0]
  }

  lemma SignalWakesHead(s: State, t: nat)
    requires NapInv(s)
    ensures WakesHead(s, Log(Signal(s), Return(t, NoResult)))
  {
    SleepersAreListed(s);
    var r := Log(Signal(s), Return(t, NoResult));
    forall h: nat
      ensures Sleeps(s, h) && !Sleeps(r, h) <==> s.waiters != [] && h == s.waiters[0]
    {
      assert NapIn(r.history, h) == NapIn(Signal(s).history, h);
      assert s.waiters != [] ==> s.waiters[0] in s.waiters;
    }
  }

  /**
   * The last step of a push wakes the helper at the head of the list and no other; so it wakes one
   * if and only if one has parked and not yet been notified.
   */
  lemma SignalReaches(n: nat, acts: seq<Action>, t: nat, pick: bool)
    requires var s := Run(Init(n), acts); t < |s.threads| && s.threads[t].PushSignal?
    ensures var s := Run(Init(n), acts); var r := Step(s, ThreadStep(t, pick));
      && r.threads == s.threads[t := Idle]
      && WakesHead(s, r)
      && (s.waiters != [] <==> exists h: nat :: Sleeps(s, h))
  {
    Reachable(n, acts);
    var s := Run(Init(n), acts);
    SignalStep(s, t, pick);
    SignalWakesHead(s.(threads := s.threads[t := Idle]), t);
    SleepersAreListed(s);
    assert s.waiters != [] ==> s.waiters[0] in s.waiters;
  }

  lemma BroadcastStep(s: State, t: nat, pick: bool)
    requires !s.crashed && t < |s.threads| && s.threads[t].PopBroadcast?
    ensures Step(s, ThreadStep(t, pick)) ==
      Log(Broadcast(s.(threads := s.threads[t := Leave(Nothing, true)])), Commit(t, GaveUp))
  {
  }

  lemma BroadcastWakesAll(s: State, e: Event)
    requires NapInv(s) && e.Commit?
    ensures forall h: nat :: !Sleeps(Log(Broadcast(s), e), h)
  {
    BroadcastEmpties(s);
    BroadcastWakes(s);
    SleepersAreListed(Broadcast(s));
    forall h: nat
      ensures !Sleeps(Log(Broadcast(s), e), h)
    {
      assert NapIn(Log(Broadcast(s), e).history, h) == NapIn(Broadcast(s).history, h);
    }
  }

  /** The helpers that have parked and not been notified, in the order in which they parked. */
  function Parking(h: Trace): seq<nat> {
    match h
    case Start => []
    case Then(past, e) => NextParking(Parking(past), e)
  }

  function NextParking(p: seq<nat>, e: Event): seq<nat> {
    match e
    case Parked(g) => p + [g]
    case Notified(g) => if p != [] && p[0] == g then p[1..] else p
    case _ => p
  }

  ghost predicate InParkingOrder(s: State) {
    s.waiters == Parking(s.history)
  }

  lemma SignalKeepsOrder(s: State)
    requires InParkingOrder(s)
    ensures InParkingOrder(Signal(s))
  {
  }

  lemma {:induction false} BroadcastKeepsOrder(s: State)
    requires InParkingOrder(s)
    ensures InParkingOrder(Broadcast(s))
    decreases |s.waiters|
  {
    if s.waiters != [] {
      SignalKeepsOrder(s);
      BroadcastKeepsOrder(Signal(s));
    }
  }

  predicate OfThread(n: Note) {
    n.Note? ==> n.event.Invoke? || n.event.SawEmpty? || n.event.Commit? || n.event.Return?
  }

  lemma AwakenKeepsOrder(s: State, w: Wake)
    requires InParkingOrder(s)
    ensures InParkingOrder(Awaken(s, w))
  {
    match w
    case NoWake =>
    case WakeOne => SignalKeepsOrder(s);
    case WakeAll => BroadcastKeepsOrder(s);
  }

  lemma ApplyKeepsOrder(s: State, t: nat, m: Move)
    requires InParkingOrder(s) && t < |s.threads| && (m.Go? ==> OfThread(m.note))
    ensures InParkingOrder(Apply(s, t, m))
  {
    if Enabled(s, m) {
      AwakenKeepsOrder(Place(s, t, m, OwnerAfter(s, t, m)), m.wake);
    }
  }

  lemma StepKeepsOrder(s: State, a: Action)
    requires InParkingOrder(s)
    ensures InParkingOrder(Step(s, a))
  {
    match a
    case Call(t, op) =>
      if t < |s.threads| {
        ApplyKeepsOrder(s, t, Noted(Entry(op), s.items, Invoke(t, op)));
      }
    case ThreadStep(t, pick) =>
      if t < |s.threads| {
        assert ThreadMove(s, t, pick).Go? ==> OfThread(ThreadMove(s, t, pick).note);
        ApplyKeepsOrder(s, t, ThreadMove(s, t, pick));
      }
    case HelperStep(h) =>
    case Close =>
  }

  /** The list is served first in, first out: its head is the helper that has been parked longest. */
  lemma {:induction false} WaitersInParkingOrder(s: State, acts: seq<Action>)
    requires InParkingOrder(s)
    ensures InParkingOrder(Run(s, acts))
    decreases |acts|
  {
    if acts != [] {
      StepKeepsOrder(s, acts[0]);
      WaitersInParkingOrder(Step(s, acts[0]), acts[1..]);
    }
  }

  lemma LongestParkedFirst(n: nat, acts: seq<Action>)
    ensures InParkingOrder(Run(Init(n), acts))
  {
    WaitersInParkingOrder(Init(n), acts);
  }

  /** Pop gives up only after done is closed, removes nothing, and leaves no helper asleep behind. */
  lemma GiveUpWakesAll(n: nat, acts: seq<Action>, t: nat, pick: bool)
    requires var s := Run(Init(n), acts); t < |s.threads| && s.threads[t].PopBroadcast?
    ensures var s := Run(Init(n), acts); var r := Step(s, ThreadStep(t, pick));
      && s.closed && r.items == s.items && r.threads == s.threads[t := Leave(Nothing, true)]
      && forall h: nat :: !Sleeps(r, h)
  {
    Reachable(n, acts);
    var s := Run(Init(n), acts);
    assert PcOk(s.threads[t], |s.items|, s.closed);
    BroadcastStep(s, t, pick);
    var placed := s.(threads := s.threads[t := Leave(Nothing, true)]);
    BroadcastWakes(placed);
    BroadcastWakesAll(placed, Commit(t, GaveUp));
  }

  lemma {:induction false} BroadcastEmpties(s: State)
    ensures Broadcast(s).waiters == []
    decreases |s.waiters|
  {
    if s.waiters != [] {
      BroadcastEmpties(Signal(s));
    }
  }

  // ---------------------------------------------------------------- a signal that arrives

  /** Thread `t` waits on the channel of helper `h`, which is no longer on the list. */
  ghost predicate Woken(s: State, items: seq<Item>, owner: Owner, t: nat, pc: Pc, h: nat, hpc: HelperPc) {
    && !s.crashed && s.items == items && s.owner == owner && h !in s.waiters
    && t < |s.threads| && s.threads[t] == pc
    && h < |s.helpers| && s.helpers[h] == hpc
  }

  lemma HelperStepWoken(s: State, items: seq<Item>, t: nat, pc: Pc, h: nat)
    requires h < |s.helpers| && Woken(s, items, s.owner, t, pc, h, s.helpers[h])
    ensures var r := Step(s, HelperStep(h));
      && (s.helpers[h] == HSleep ==> Woken(r, items, s.owner, t, pc, h, HRelock))
      && (s.helpers[h] == HRelock && s.owner.Free? ==> Woken(r, items, Helper(h), t, pc, h, HRelease))
      && (s.helpers[h] == HRelease && !s.owner.Free? ==> Woken(r, items, Free, t, pc, h, HClose))
      && (s.helpers[h] == HClose ==> Woken(r, items, s.owner, t, pc, h, HDone))
      && (s.helpers[h] == HDone ==> r == s)
  {
  }

  /** The steps of a notified helper that need no more than a free mutex; spare ones change nothing. */
  function Closing(h: nat): seq<Action> {
    [HelperStep(h)] + QueueTheorems.Three(HelperStep(h))
  }

  lemma HelperCloses(s: State, items: seq<Item>, t: nat, pc: Pc, h: nat, hpc: HelperPc)
    requires Woken(s, items, Free, t, pc, h, hpc) && (hpc == HSleep || hpc == HRelock || hpc == HClose || hpc == HDone)
    ensures Woken(Run(s, Closing(h)), items, Free, t, pc, h, HDone)
  {
    var a := HelperStep(h);
    QueueTheorems.RunConcat(s, [a], QueueTheorems.Three(a));
    QueueTheorems.RunOne(s, a);
    HelperStepWoken(s, items, t, pc, h);
    var s1 := Step(s, a);
    QueueTheorems.RunThree(s1, a);
    HelperStepWoken(s1, items, t, pc, h);
    HelperStepWoken(Step(s1, a), items, t, pc, h);
    HelperStepWoken(Step(Step(s1, a), a), items, t, pc, h);
  }

  lemma PopStepWoken(s: State, items: seq<Item>, t: nat, h: nat)
    requires t < |s.threads| && Woken(s, items, s.owner, t, s.threads[t], h, HDone) && items != []
    ensures var r := Step(s, ThreadStep(t, false));
      && (s.threads[t] == PopSelect(h) ==> Woken(r, items, s.owner, t, PopRelock, h, HDone))
      && (s.threads[t] == PopRelock && s.owner.Free? ==> Woken(r, items, Thread(t), t, PopCheck, h, HDone))
      && (s.threads[t] == PopCheck ==> Woken(r, items, s.owner, t, Root(true), h, HDone))
  {
  }

  lemma PopTakes(s: State, items: seq<Item>, t: nat, h: nat)
    requires Woken(s, items, Free, t, PopSelect(h), h, HDone) && items != []
    ensures Woken(Run(s, QueueTheorems.Three(ThreadStep(t, false))), items, Thread(t), t, Root(true), h, HDone)
  {
    var a := ThreadStep(t, false);
    QueueTheorems.RunThree(s, a);
    PopStepWoken(s, items, t, h);
    PopStepWoken(Step(s, a), items, t, h);
    PopStepWoken(Step(Step(s, a), a), items, t, h);
  }

  /** What Pop and its helper do between them, once the helper has been notified. */
  function GoOn(t: nat, h: nat): seq<Action> {
    Closing(h) + QueueTheorems.Three(ThreadStep(t, false))
  }

  lemma WokenGoesOn(s: State, items: seq<Item>, t: nat, h: nat, hpc: HelperPc)
    requires Woken(s, items, Free, t, PopSelect(h), h, hpc) && items != []
    requires hpc == HSleep || hpc == HRelock || hpc == HClose || hpc == HDone
    ensures Woken(Run(s, GoOn(t, h)), items, Thread(t), t, Root(true), h, HDone)
  {
    HelperCloses(s, items, t, PopSelect(h), h, hpc);
    QueueTheorems.RunConcat(s, Closing(h), QueueTheorems.Three(ThreadStep(t, false)));
    PopTakes(Run(s, Closing(h)), items, t, h);
  }

  // ---------------------------------------------------------------- exactly when Pop can go on

  predicate WasNotified(s: State, h: nat) {
    NapIn(s.history, h) == Awake || NapIn(s.history, h) == Finished
  }

  /** Nobody moves but thread `t` and helpers, any of them and in any order. */
  ghost predicate OnlyBy(run: seq<Action>, t: nat) {
    forall k :: 0 <= k < |run| ==> run[k].HelperStep? || (run[k].ThreadStep? && run[k].t == t)
  }

  ghost predicate TakesRoot(s: State, run: seq<Action>, t: nat) {
    t < |Run(s, run).threads| && Run(s, run).threads[t] == Root(true)
  }

  /** Thread `t` can come to remove the root without another push, cancellation or caller. */
  ghost predicate CanTakeRoot(s: State, t: nat) {
    exists run :: OnlyBy(run, t) && TakesRoot(s, run, t)
  }

  ghost predicate KeptWaiting(s: State, t: nat, h: nat) {
    t < |s.threads| && s.threads[t] == PopSelect(h) && !s.closed && !WasNotified(s, h)
  }

  /** A select on a channel that nobody has closed does not move. */
  lemma SelectBlocks(s: State, t: nat, h: nat, pick: bool)
    requires NapInv(s) && KeptWaiting(s, t, h)
    ensures Step(s, ThreadStep(t, pick)) == s
  {
    assert h < |s.helpers| ==> NapOk(s.helpers[h], h in s.waiters, NapIn(s.history, h));
  }

  /** A helper's step notifies nobody. */
  lemma HelperNotifiesNobody(s: State, g: nat, h: nat)
    requires NapInv(s) && !WasNotified(s, h)
    ensures var r := Step(s, HelperStep(g)); r.threads == s.threads && r.closed == s.closed && !WasNotified(r, h)
  {
    if g < |s.helpers| && !s.crashed {
      assert NapOk(s.helpers[g], g in s.waiters, NapIn(s.history, g));
      var e := if s.helpers[g] == HEnlist then Parked(g) else ClosedWaiting(g);
      var r := StepHelper(s, g);
      assert r.history != s.history ==>
        r.history == Then(s.history, e) && (s.helpers[g] == HEnlist || s.helpers[g] == HClose);
    }
  }

  lemma WaitingStep(s: State, a: Action, t: nat, h: nat)
    requires NapInv(s) && KeptWaiting(s, t, h)
    requires a.HelperStep? || (a.ThreadStep? && a.t == t)
    ensures KeptWaiting(Step(s, a), t, h)
  {
    if a.HelperStep? {
      HelperNotifiesNobody(s, a.h, h);
    } else {
      SelectBlocks(s, t, h, a.pickDone);
    }
  }

  lemma {:induction false} WaitingStays(s: State, run: seq<Action>, t: nat, h: nat)
    requires Inv(s) && KeptWaiting(s, t, h) && OnlyBy(run, t)
    ensures KeptWaiting(Run(s, run), t, h)
    decreases |run|
  {
    if run != [] {
      WaitingStep(s, run[0], t, h);
      StepKeepsInv(s, run[0]);
      WaitingStays(Step(s, run[0]), run[1..], t, h);
    }
  }

  lemma NotifiedCanTake(s: State, t: nat, h: nat)
    requires !s.crashed && LockInv(s) && NapInv(s) && s.owner.Free? && s.items != []
    requires t < |s.threads| && s.threads[t] == PopSelect(h) && WasNotified(s, h)
    ensures CanTakeRoot(s, t)
  {
    assert h < |s.helpers| && NapOk(s.helpers[h], h in s.waiters, NapIn(s.history, h));
    assert !HelperHolds(s.helpers[h]);
    WokenGoesOn(s, s.items, t, h, s.helpers[h]);
    var run := GoOn(t, h);
    assert OnlyBy(run, t) && TakesRoot(s, run, t);
  }

  /**
   * Items are there, the mutex is free and done is open: a blocked Pop can go on, by its own and the
   * helpers' steps, if and only if its helper has been notified. Otherwise no run of those steps,
   * however long, gets it away from its select.
   */
  lemma PopGoesOnExactly(n: nat, acts: seq<Action>, t: nat, h: nat)
    requires var s := Run(Init(n), acts);
      && t < |s.threads| && s.threads[t] == PopSelect(h)
      && s.owner.Free? && s.items != [] && !s.closed
    ensures var s := Run(Init(n), acts);
      CanTakeRoot(s, t) <==> WasNotified(s, h)
  {
    Reachable(n, acts);
    var s := Run(Init(n), acts);
    if WasNotified(s, h) {
      NotifiedCanTake(s, t, h);
    } else if CanTakeRoot(s, t) {
      var run :| OnlyBy(run, t) && TakesRoot(s, run, t);
      WaitingStays(s, run, t, h);
    }
  }

  /**
   * The signal that arrives: in every reachable state with items and a free mutex in which the helper
   * of a blocked Pop heads the list, the signal of a push lets that Pop go on.
   */
  lemma SignalLetsPopThrough(n: nat, acts: seq<Action>, t: nat, u: nat, h: nat, pick: bool)
    requires var s := Run(Init(n), acts);
      && t < |s.threads| && u < |s.threads| && s.owner.Free? && s.items != []
      && s.threads[t] == PopSelect(h) && s.threads[u].PushSignal?
      && s.waiters != [] && s.waiters[0] == h
    ensures CanTakeRoot(Step(Run(Init(n), acts), ThreadStep(u, pick)), t)
  {
    Reachable(n, acts);
    var s := Run(Init(n), acts);
    SignalStep(s, u, pick);
    StepKeepsInv(s, ThreadStep(u, pick));
    assert h in s.waiters && NapOk(s.helpers[h], true, NapIn(s.history, h));
    NotifiedCanTake(Step(s, ThreadStep(u, pick)), t, h);
  }
}
