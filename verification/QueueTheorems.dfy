/** What callers of the queue may rely on, for every interleaving. */
module QueueTheorems {
  import opened PriorityOrder
  import opened Heap
  import opened QueueProtocol
  import opened QueueSafety

  // ---------------------------------------------------------------- mutual exclusion

  /**
   * No run-time failure, at most one goroutine inside, and a deferred or explicit unlock only ever
   * releases the caller's own lock; the internal pop never meets an empty slice.
   */
  lemma LockDiscipline(n: nat, acts: seq<Action>)
    ensures var s := Run(Init(n), acts);
      && !s.crashed
      && (forall t, u | 0 <= t < |s.threads| && 0 <= u < |s.threads| ::
          Holds(s.threads[t]) && Holds(s.threads[u]) ==> t == u)
      && (forall t, h | 0 <= t < |s.threads| && 0 <= h < |s.helpers| ::
          Holds(s.threads[t]) ==> !HelperHolds(s.helpers[h]))
      && (forall t :: 0 <= t < |s.threads| && s.threads[t].Leave? ==> s.owner == Thread(t))
      && (forall t :: 0 <= t < |s.threads| && s.threads[t].Root? ==> s.items != [])
  {
    Reachable(n, acts);
    var s := Run(Init(n), acts);
    forall t | 0 <= t < |s.threads|
      ensures s.threads[t].Root? ==> s.items != []
    {
      assert PcOk(s.threads[t], |s.items|, s.closed);
    }
  }

  // ---------------------------------------------------------------- linearisability

  function Enqueued(h: Trace): multiset<Item> {
    match h
    case Start => multiset{}
    case Then(past, e) =>
      Enqueued(past) + if e.Commit? && e.effect.Enqueue? then multiset{e.effect.item} else multiset{}
  }

  function Dequeued(h: Trace): multiset<Item> {
    match h
    case Start => multiset{}
    case Then(past, e) =>
      Dequeued(past) + if e.Commit? && e.effect.Dequeue? then multiset{e.effect.item} else multiset{}
  }

  /** In a legal history nothing is lost and nothing comes out twice. */
  lemma {:induction false} LegalConserves(h: Trace)
    requires Legal(h)
    ensures Enqueued(h) == Dequeued(h) + Bag(h)
  {
    match h
    case Start =>
    case Then(past, e) =>
      LegalConserves(past);
      assert e.Commit? && e.effect.Dequeue? ==> e.effect.item in Bag(past);
  }

  /** A sift in progress only has the items of the slice left to rearrange. */
  lemma SettledItems(s: State)
    ensures multiset(Settled(s)) == multiset(s.items)
  {
    if s.owner.Thread? && s.owner.t < |s.threads| {
      match s.threads[s.owner.t]
      case PushSift(_, i) =>
        if i < |s.items| {
          SiftUpKeepsItems(s.items, i);
        }
      case SiftRoot(_, i, _) =>
        if i < |s.items| {
          SiftDownKeepsItems(s.items, i);
        }
      case _ =>
    }
  }

  /**
   * The effects in lock order form a legal sequential history, every call takes effect exactly
   * once between its start and its return and returns what that effect says, the slice holds at
   * all times what went in and has not come out, and whenever the mutex is free it is the heap that
   * the same effects build sequentially.
   */
  lemma Linearisable(n: nat, acts: seq<Action>)
    ensures var s := Run(Init(n), acts);
      && Legal(s.history)
      && (forall t :: 0 <= t < |s.threads| ==> PhaseIn(s.history, t) != Broken)
      && (s.owner.Free? ==> s.items == Layout(s.history) && IsHeap(s.items))
      && Enqueued(s.history) == Dequeued(s.history) + multiset(s.items)
  {
    Reachable(n, acts);
    var s := Run(Init(n), acts);
    LegalConserves(s.history);
    SettledItems(s);
    forall t | 0 <= t < |s.threads|
      ensures PhaseIn(s.history, t) != Broken
    {
      assert PhaseOk(s.threads[t], PhaseIn(s.history, t));
    }
  }

  function Events(h: Trace): seq<Event> {
    match h
    case Start => []
    case Then(past, e) => Events(past) + [e]
  }

  predicate OwnEvent(e: Event, t: nat) {
    (e.Invoke? && e.t == t) || (e.Commit? && e.t == t) || (e.Return? && e.t == t)
  }

  /** `t` is silent in `es` from `i` to `j`, both excluded. */
  ghost predicate Quiet(es: seq<Event>, t: nat, i: int, j: int)
    requires -1 <= i && j <= |es|
  {
    forall k :: i < k < j ==> !OwnEvent(es[k], t)
  }

  ghost predicate CalledAt(es: seq<Event>, t: nat, op: Op, i: int) {
    0 <= i < |es| && es[i] == Invoke(t, op) && Quiet(es, t, i, |es|)
  }

  ghost predicate CommittedAt(es: seq<Event>, t: nat, op: Op, f: Effect, i: int, j: int) {
    && 0 <= i < j < |es|
    && es[i] == Invoke(t, op) && es[j] == Commit(t, f) && Fits(op, true, f)
    && Quiet(es, t, i, j) && Quiet(es, t, j, |es|)
  }

  /** Where the phase of thread `t` came from. */
  ghost predicate Witnessed(es: seq<Event>, t: nat, p: Phase) {
    match p
    case Called(op, _) => exists i :: CalledAt(es, t, op, i)
    case Done(op, f) => exists i, j :: CommittedAt(es, t, op, f, i, j)
    case _ => true
  }

  lemma WitnessStep(es: seq<Event>, e: Event, t: nat, p: Phase)
    requires Witnessed(es, t, p) && NextPhase(p, e, t) != Broken
    ensures Witnessed(es + [e], t, NextPhase(p, e, t))
  {
    var q, fs := NextPhase(p, e, t), es + [e];
    assert fs[|es|] == e;
    match p
    case Called(op, _) =>
      var i :| CalledAt(es, t, op, i);
      assert q.Called? ==> CalledAt(fs, t, op, i);
      assert q.Done? ==> CommittedAt(fs, t, op, q.effect, i, |es|);
    case Done(op, f) =>
      var i, j :| CommittedAt(es, t, op, f, i, j);
      assert q.Done? ==> CommittedAt(fs, t, op, f, i, j);
    case Out =>
      assert q.Called? ==> CalledAt(fs, t, q.op, |es|);
    case Broken =>
  }

  lemma {:induction false} PhaseWitness(h: Trace, t: nat)
    requires PhaseIn(h, t) != Broken
    ensures Witnessed(Events(h), t, PhaseIn(h, t))
  {
    match h
    case Start =>
    case Then(past, e) =>
      PhaseWitness(past, t);
      WitnessStep(Events(past), e, t, PhaseIn(past, t));
  }

  /** The call that returns at `k` started at `i`, took an effect that suits it at `j`, and nothing else. */
  ghost predicate TookEffect(es: seq<Event>, t: nat, i: int, j: int, k: int) {
    && 0 <= i < j < k < |es|
    && es[i].Invoke? && es[i].t == t
    && es[j].Commit? && es[j].t == t && Fits(es[i].op, true, es[j].effect)
    && es[k] == Return(t, ResultOf(es[j].effect))
    && Quiet(es, t, i, j) && Quiet(es, t, j, k)
  }

  lemma {:induction false} ReturnWitness(h: Trace, t: nat, k: nat)
    requires PhaseIn(h, t) != Broken && k < |Events(h)|
    requires Events(h)[k].Return? && Events(h)[k].t == t
    ensures exists i, j :: TookEffect(Events(h), t, i, j, k)
  {
    var past, e := h.past, h.last;
    if k < |Events(past)| {
      ReturnWitness(past, t, k);
      var i, j :| TookEffect(Events(past), t, i, j, k);
      assert TookEffect(Events(h), t, i, j, k);
    } else {
      PhaseWitness(past, t);
      var p := PhaseIn(past, t);
      var i, j :| CommittedAt(Events(past), t, p.op, p.effect, i, j);
      assert TookEffect(Events(h), t, i, j, k);
    }
  }

  /** A call that starts after another has returned also takes effect after it. */
  lemma RealTimeOrder(n: nat, acts: seq<Action>, t: nat, u: nat, k: nat, l: nat)
    requires t < n && u < n
    requires var es := Events(Run(Init(n), acts).history);
      && k < l < |es| && es[k].Return? && es[k].t == t && es[l].Return? && es[l].t == u
      && exists i :: k < i < l && es[i].Invoke? && es[i].t == u
    ensures var es := Events(Run(Init(n), acts).history);
      exists i, j, i', j' :: TookEffect(es, t, i, j, k) && TookEffect(es, u, i', j', l) && j < k < j'
  {
    var s := Run(Init(n), acts);
    var es := Events(s.history);
    Linearisable(n, acts);
    RunKeepsThreads(Init(n), acts);
    ReturnWitness(s.history, t, k);
    ReturnWitness(s.history, u, l);
    var i, j :| TookEffect(es, t, i, j, k);
    var i', j' :| TookEffect(es, u, i', j', l);
    var m :| k < m < l && es[m].Invoke? && es[m].t == u;
    assert OwnEvent(es[m], u);
  }

  lemma {:induction false} RunKeepsThreads(s: State, acts: seq<Action>)
    requires Inv(s)
    ensures |Run(s, acts).threads| == |s.threads|
    decreases |acts|
  {
    if acts != [] {
      StepKeepsInv(s, acts[0]);
      StepKeepsThreads(s, acts[0]);
      RunKeepsThreads(Step(s, acts[0]), acts[1..]);
    }
  }

  lemma StepKeepsThreads(s: State, a: Action)
    ensures |Step(s, a).threads| == |s.threads|
  {
    match a
    case Call(t, op) =>
      if t < |s.threads| {
        ApplyKeepsThreads(s, t, Noted(Entry(op), s.items, Invoke(t, op)));
      }
    case ThreadStep(t, pickDone) =>
      if t < |s.threads| {
        ApplyKeepsThreads(s, t, ThreadMove(s, t, pickDone));
      }
    case _ =>
  }

  lemma ApplyKeepsThreads(s: State, t: nat, m: Move)
    requires t < |s.threads|
    ensures |Apply(s, t, m).threads| == |s.threads|
  {
    if Enabled(s, m) {
      AwakenWakes(Place(s, t, m, OwnerAfter(s, t, m)), m.wake);
    }
  }

  // ---------------------------------------------------------------- the waiting channels

  ghost predicate SleptAndWoken(es: seq<Event>, h: nat, p: int, q: int) {
    0 <= p < q < |es| && es[p] == Parked(h) && es[q] == Notified(h)
  }

  ghost predicate NapWitnessed(es: seq<Event>, h: nat, p: Nap) {
    && (p.Asleep? ==> Parked(h) in es)
    && (p.Awake? || p.Finished? ==> exists i, j :: SleptAndWoken(es, h, i, j))
    && (!p.Finished? ==> ClosedWaiting(h) !in es)
  }

  lemma NapWitnessStep(es: seq<Event>, e: Event, h: nat, p: Nap)
    requires NapWitnessed(es, h, p) && NextNap(p, e, h) != Wrong
    ensures NapWitnessed(es + [e], h, NextNap(p, e, h))
  {
    var fs := es + [e];
    assert fs[|es|] == e;
    if p.Awake? || p.Finished? {
      var i, j :| SleptAndWoken(es, h, i, j);
      assert SleptAndWoken(fs, h, i, j);
    } else if p.Asleep? {
      var i :| 0 <= i < |es| && es[i] == Parked(h);
      assert fs[i] == Parked(h);
      assert e == Notified(h) ==> SleptAndWoken(fs, h, i, |es|);
    }
  }

  lemma {:induction false} NapWitness(tr: Trace, h: nat)
    requires NapIn(tr, h) != Wrong
    ensures NapWitnessed(Events(tr), h, NapIn(tr, h))
  {
    match tr
    case Start =>
    case Then(past, e) =>
      NapWitness(past, h);
      NapWitnessStep(Events(past), e, h, NapIn(past, h));
  }

  /** `waiting` is closed at most once, and only after its helper parked and was then signalled. */
  lemma {:induction false} NapCloses(tr: Trace, h: nat, k: nat)
    requires NapIn(tr, h) != Wrong && k < |Events(tr)| && Events(tr)[k] == ClosedWaiting(h)
    ensures exists p, q :: SleptAndWoken(Events(tr), h, p, q) && q < k
    ensures forall l :: 0 <= l < |Events(tr)| && l != k ==> Events(tr)[l] != ClosedWaiting(h)
  {
    var past, e := tr.past, tr.last;
    NapWitness(past, h);
    if k < |Events(past)| {
      NapCloses(past, h, k);
      var p, q :| SleptAndWoken(Events(past), h, p, q) && q < k;
      assert SleptAndWoken(Events(tr), h, p, q);
    } else {
      var p, q :| SleptAndWoken(Events(past), h, p, q);
      assert SleptAndWoken(Events(tr), h, p, q);
    }
  }

  lemma WaitingChannels(n: nat, acts: seq<Action>, h: nat, k: nat)
    requires var es := Events(Run(Init(n), acts).history); k < |es| && es[k] == ClosedWaiting(h)
    ensures var es := Events(Run(Init(n), acts).history);
      && (exists p, q :: SleptAndWoken(es, h, p, q) && q < k)
      && (forall l :: 0 <= l < |es| && l != k ==> es[l] != ClosedWaiting(h))
  {
    Reachable(n, acts);
    var s := Run(Init(n), acts);
    if h < |s.helpers| {
      assert NapOk(s.helpers[h], h in s.waiters, NapIn(s.history, h));
    }
    NapCloses(s.history, h, k);
  }

  // ---------------------------------------------------------------- a lost signal

  lemma {:induction false} RunConcat(s: State, a: seq<Action>, b: seq<Action>)
    ensures Run(s, a + b) == Run(Run(s, a), b)
    decreases |a|
  {
    if a == [] {
      assert a + b == b;
    } else {
      assert (a + b)[1..] == a[1..] + b;
      RunConcat(Step(s, a[0]), a[1..], b);
    }
  }

  function Three(a: Action): seq<Action> {
    [a, a, a]
  }

  lemma RunOne(s: State, a: Action)
    ensures Run(s, [a]) == Step(s, a)
  {
    assert [a][1..] == [];
  }

  lemma RunThree(s: State, a: Action)
    ensures Run(s, Three(a)) == Step(Step(Step(s, a), a), a)
  {
    assert Three(a) == [a] + ([a] + [a]);
    RunConcat(s, [a], [a] + [a]);
    RunConcat(Step(s, a), [a], [a]);
    RunOne(s, a);
    RunOne(Step(s, a), a);
    RunOne(Step(Step(s, a), a), a);
  }

  /** The slice, the owner, the threads, the helpers and the waiters are as given, and nothing is closed. */
  ghost predicate Looks(s: State, items: seq<Item>, threads: seq<Pc>, helpers: seq<HelperPc>, waiters: seq<nat>) {
    && s.items == items && s.owner.Free? && s.threads == threads && s.helpers == helpers && s.waiters == waiters
    && !s.closed && !s.crashed
  }

  /** Pop on the empty queue, up to its select; the helper that it spawned has not run yet. */
  lemma PopWaits(s: State)
    requires Looks(s, [], [PopLock, Idle], [], [])
    ensures Looks(Run(s, Three(ThreadStep(0, false))), [], [PopSelect(0), Idle], [HLock], [])
  {
    var a := ThreadStep(0, false);
    RunThree(s, a);
    PopEnters(s);
    PopLeaves(Step(Step(s, a), a));
  }

  lemma PopEnters(s: State)
    requires Looks(s, [], [PopLock, Idle], [], [])
    ensures var a := ThreadStep(0, false); var r := Step(Step(s, a), a);
      r.owner == Thread(0) && Looks(r.(owner := Free), [], [PopUnlock(0), Idle], [HLock], [])
  {
    var r := Step(s, ThreadStep(0, false));
    assert r.threads == [PopCheck, Idle] && r.owner == Thread(0) && r.items == [] && r.helpers == [];
  }

  lemma PopLeaves(s: State)
    requires s.owner == Thread(0) && Looks(s.(owner := Free), [], [PopUnlock(0), Idle], [HLock], [])
    ensures Looks(Step(s, ThreadStep(0, false)), [], [PopSelect(0), Idle], [HLock], [])
  {
  }

  /** A push into the empty queue, up to its unlock. */
  lemma PushEnters(s: State, x: Item)
    requires Looks(s, [], [PopSelect(0), PushLock(x)], [HLock], [])
    ensures var r := Run(s, Three(ThreadStep(1, false)));
      r.owner == Thread(1) && Looks(r.(owner := Free), [x], [PopSelect(0), PushUnlock(x)], [HLock], [])
  {
    var a := ThreadStep(1, false);
    RunThree(s, a);
    var s1 := Step(s, a);
    assert s1.threads == [PopSelect(0), PushAppend(x)] && s1.owner == Thread(1) && s1.items == [];
    var s2 := Step(s1, a);
    assert s2.threads == [PopSelect(0), PushSift(x, 0)] && s2.items == [x];
  }

  /** Its unlock and its signal, while nobody is on the list. */
  lemma PushSignalsNobody(s: State, x: Item)
    requires s.owner == Thread(1) && Looks(s.(owner := Free), [x], [PopSelect(0), PushUnlock(x)], [HLock], [])
    ensures Looks(Run(s, [ThreadStep(1, false), ThreadStep(1, false)]), [x], [PopSelect(0), Idle], [HLock], [])
  {
    var a := ThreadStep(1, false);
    assert [a, a] == [a] + [a];
    RunConcat(s, [a], [a]);
    RunOne(s, a);
    var s1 := Step(s, a);
    RunOne(s1, a);
    assert s1.threads == [PopSelect(0), PushSignal(x)] && s1.owner.Free?;
  }

  /** Only now the helper locks, enlists and goes to sleep. */
  lemma HelperParks(s: State, x: Item)
    requires Looks(s, [x], [PopSelect(0), Idle], [HLock], [])
    ensures Looks(Run(s, Three(HelperStep(0))), [x], [PopSelect(0), Idle], [HSleep], [0])
  {
    var a := HelperStep(0);
    RunThree(s, a);
    assert Step(s, a).helpers == [HEnlist] && Step(Step(s, a), a).helpers == [HUnlock];
  }

  lemma Stuck(s: State, x: Item)
    requires Looks(s, [x], [PopSelect(0), Idle], [HSleep], [0])
    ensures forall t, pick :: Step(s, ThreadStep(t, pick)) == s
    ensures forall h :: Step(s, HelperStep(h)) == s
  {
  }

  function PopPart(): seq<Action> {
    [Call(0, OpPop)] + Three(ThreadStep(0, false))
  }

  function PushPart(x: Item): seq<Action> {
    [Call(1, OpPush(x))] + (Three(ThreadStep(1, false)) + [ThreadStep(1, false), ThreadStep(1, false)])
  }

  lemma PopPartRuns()
    ensures Looks(Run(Init(2), PopPart()), [], [PopSelect(0), Idle], [HLock], [])
  {
    RunConcat(Init(2), [Call(0, OpPop)], Three(ThreadStep(0, false)));
    RunOne(Init(2), Call(0, OpPop));
    var s := Step(Init(2), Call(0, OpPop));
    assert s.threads == [PopLock, Idle];
    PopWaits(s);
  }

  lemma PushPartRuns(s: State, x: Item)
    requires Looks(s, [], [PopSelect(0), Idle], [HLock], [])
    ensures Looks(Run(s, PushPart(x)), [x], [PopSelect(0), Idle], [HLock], [])
  {
    var a := ThreadStep(1, false);
    RunConcat(s, [Call(1, OpPush(x))], Three(a) + [a, a]);
    RunOne(s, Call(1, OpPush(x)));
    var r := Step(s, Call(1, OpPush(x)));
    assert r.threads == [PopSelect(0), PushLock(x)];
    RunConcat(r, Three(a), [a, a]);
    PushEnters(r, x);
    PushSignalsNobody(Run(r, Three(a)), x);
  }

  /**
   * Pop does not always return once an item is available: here the push and its signal fall between
   * Pop's unlock and its helper's Wait, after which no goroutine can move although the item is there.
   */
  lemma LostSignal(x: Item)
    ensures var s := Run(Init(2), PopPart() + PushPart(x) + Three(HelperStep(0)));
      && s.items == [x] && s.owner.Free? && s.threads == [PopSelect(0), Idle]
      && (forall t, pick :: Step(s, ThreadStep(t, pick)) == s)
      && (forall h :: Step(s, HelperStep(h)) == s)
  {
    RunConcat(Init(2), PopPart() + PushPart(x), Three(HelperStep(0)));
    RunConcat(Init(2), PopPart(), PushPart(x));
    PopPartRuns();
    var s := Run(Init(2), PopPart());
    PushPartRuns(s, x);
    var r := Run(s, PushPart(x));
    HelperParks(r, x);
    Stuck(Run(r, Three(HelperStep(0))), x);
  }
}
