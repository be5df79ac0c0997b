/**
 * One delivery among all the others: whatever other workers, the gateway and the broker do between its
 * steps, and whether or not its worker survives it, what it leaves in the history is the beginning of
 * what handling the message alone would do.
 */
module PipelineDeliveries {
  import opened PriorityOrder
  import opened Sequences
  import opened Pipeline
  import opened Replays
  import PipelineSafety
  import Drainer
  import Worker

  /** The effects of delivery `d`, in order. */
  function Of(h: seq<Entry>, d: nat): seq<Worker.Effect> {
    if h == [] then []
    else
      var last := h[|h| - 1];
      Of(h[..|h| - 1], d) + if last.d == d then [last.effect] else []
  }

  lemma OfSnoc(h: seq<Entry>, e: Entry, d: nat)
    ensures Of(h + [e], d) == Of(h, d) + if e.d == d then [e.effect] else []
  {
    assert (h + [e])[..|h|] == h;
  }

  lemma {:induction false} OfNone(h: seq<Entry>, d: nat)
    requires forall i :: 0 <= i < |h| ==> h[i].d != d
    ensures Of(h, d) == []
  {
    if h != [] {
      OfNone(h[..|h| - 1], d);
    }
  }

  /** The bytes that delivery `d` handles. */
  function Body(s: State, d: nat): Bytes
    requires d < |s.deliveries| && s.deliveries[d] < |s.stream|
  {
    s.stream[s.deliveries[d]].item.payload
  }

  function StartOf(c: Setup, s: State, d: nat): Worker.Task
    requires d < |s.deliveries| && s.deliveries[d] < |s.stream|
  {
    Worker.Start(c.names, Body(s, d), c.decodes(Body(s, d)))
  }

  /** Some answers explain what delivery `d` has done. */
  ghost predicate Explained(c: Setup, s: State, d: nat)
    requires d < |s.deliveries| && s.deliveries[d] < |s.stream|
  {
    exists inputs :: Replay(c.names, StartOf(c, s, d), inputs).1 == Of(s.history, d)
  }

  /** Some answers explain what delivery `d` has done and that it is now at `t`. */
  ghost predicate At(c: Setup, s: State, d: nat, t: Worker.Task)
    requires d < |s.deliveries| && s.deliveries[d] < |s.stream|
  {
    exists inputs :: Replay(c.names, StartOf(c, s, d), inputs) == (t, Of(s.history, d))
  }

  ghost predicate WellNumbered(s: State) {
    && (forall d :: 0 <= d < |s.deliveries| ==> s.deliveries[d] < |s.stream|)
    && (forall i :: 0 <= i < |s.history| ==>
      s.history[i].d < |s.deliveries| && s.deliveries[s.history[i].d] == s.history[i].n)
    && (forall w :: 0 <= w < |s.workers| && !s.workers[w].task.Idle? ==>
      s.workers[w].d < |s.deliveries| && s.deliveries[s.workers[w].d] == s.workers[w].n)
    && (forall v, w :: 0 <= v < w < |s.workers| && !s.workers[v].task.Idle? && !s.workers[w].task.Idle? ==>
      s.workers[v].d != s.workers[w].d)
  }

  ghost predicate Tracked(c: Setup, s: State)
    requires WellNumbered(s)
  {
    && (forall d :: 0 <= d < |s.deliveries| ==> Explained(c, s, d))
    && (forall w :: 0 <= w < |s.workers| && !s.workers[w].task.Idle? ==>
      At(c, s, s.workers[w].d, s.workers[w].task))
  }

  /** Nothing that concerns delivery `d` has changed. */
  ghost predicate Untouched(s: State, r: State, d: nat)
    requires d < |s.deliveries| && s.deliveries[d] < |s.stream|
  {
    && d < |r.deliveries| && r.deliveries[d] == s.deliveries[d] < |r.stream|
    && Body(r, d) == Body(s, d) && Of(r.history, d) == Of(s.history, d)
  }

  lemma UntouchedKeeps(c: Setup, s: State, r: State, d: nat)
    requires d < |s.deliveries| && s.deliveries[d] < |s.stream| && Untouched(s, r, d)
    ensures Explained(c, s, d) ==> Explained(c, r, d)
    ensures forall t :: At(c, s, d, t) ==> At(c, r, d, t)
  {
    if Explained(c, s, d) {
      var inputs :| Replay(c.names, StartOf(c, s, d), inputs).1 == Of(s.history, d);
      assert Replay(c.names, StartOf(c, r, d), inputs).1 == Of(r.history, d);
    }
    forall t | At(c, s, d, t)
      ensures At(c, r, d, t)
    {
      var inputs :| Replay(c.names, StartOf(c, s, d), inputs) == (t, Of(s.history, d));
      assert Replay(c.names, StartOf(c, r, d), inputs) == (t, Of(r.history, d));
    }
  }

  /** Steps that record nothing and hand out nothing: the gateway's, a lost ack, a crash. */
  lemma QuietKeepsTracked(c: Setup, s: State, r: State)
    requires WellNumbered(s) && Tracked(c, s) && Grows(s, r)
    requires r.history == s.history && r.deliveries == s.deliveries && |r.workers| == |s.workers|
    requires forall w :: 0 <= w < |s.workers| ==> r.workers[w].task.Idle? || r.workers[w] == s.workers[w]
    ensures WellNumbered(r) && Tracked(c, r)
  {
    forall d | 0 <= d < |r.deliveries|
      ensures Explained(c, r, d)
    {
      UntouchedKeeps(c, s, r, d);
    }
    forall w | 0 <= w < |r.workers| && !r.workers[w].task.Idle?
      ensures At(c, r, r.workers[w].d, r.workers[w].task)
    {
      UntouchedKeeps(c, s, r, s.workers[w].d);
    }
  }

  /** Worker `w` has got on with delivery `d`, and no other worker or delivery has been touched. */
  lemma OthersTracked(c: Setup, s: State, r: State, w: nat, d: nat)
    requires WellNumbered(s) && Tracked(c, s) && WellNumbered(r) && w < |s.workers| == |r.workers|
    requires forall v :: 0 <= v < |s.workers| && v != w ==> r.workers[v] == s.workers[v]
    requires r.workers[w].task.Idle? || r.workers[w].d == d
    requires |r.deliveries| == |s.deliveries| || (|r.deliveries| == |s.deliveries| + 1 && d == |s.deliveries|)
    requires forall e :: 0 <= e < |s.deliveries| && e != d ==> Untouched(s, r, e)
    requires forall v :: 0 <= v < |s.workers| && v != w && !s.workers[v].task.Idle? ==> s.workers[v].d != d
    requires d < |r.deliveries| && Explained(c, r, d) && At(c, r, d, r.workers[w].task)
    ensures Tracked(c, r)
  {
    forall e | 0 <= e < |r.deliveries|
      ensures Explained(c, r, e)
    {
      if e != d {
        UntouchedKeeps(c, s, r, e);
      }
    }
    forall v | 0 <= v < |r.workers| && !r.workers[v].task.Idle?
      ensures At(c, r, r.workers[v].d, r.workers[v].task)
    {
      if v != w {
        UntouchedKeeps(c, s, r, s.workers[v].d);
      }
    }
  }

  lemma HandOutTracked(c: Setup, s: State, w: nat, n: nat)
    requires WellNumbered(s) && w < |s.workers| && s.workers[w].task.Idle? && n < |s.stream| && !s.stream[n].acked
    ensures var r := Step(c, s, Deliver(w, n)); WellNumbered(r) && At(c, r, |s.deliveries|, r.workers[w].task)
  {
    var r, d := Step(c, s, Deliver(w, n)), |s.deliveries|;
    assert forall e :: 0 <= e < d ==> r.deliveries[e] == s.deliveries[e];
    OfNone(s.history, d);
    assert Replay(c.names, StartOf(c, r, d), []) == (r.workers[w].task, Of(r.history, d));
  }

  lemma DeliverKeepsTracked(c: Setup, s: State, w: nat, n: nat)
    requires WellNumbered(s) && Tracked(c, s)
    ensures WellNumbered(Step(c, s, Deliver(w, n))) && Tracked(c, Step(c, s, Deliver(w, n)))
  {
    var r := Step(c, s, Deliver(w, n));
    if w < |s.workers| && s.workers[w].task.Idle? && n < |s.stream| && !s.stream[n].acked {
      HandOutTracked(c, s, w, n);
      AtExplains(c, r, |s.deliveries|, r.workers[w].task);
      OthersTracked(c, s, r, w, |s.deliveries|);
    }
  }

  lemma AtExplains(c: Setup, s: State, d: nat, t: Worker.Task)
    requires d < |s.deliveries| && s.deliveries[d] < |s.stream| && At(c, s, d, t)
    ensures Explained(c, s, d)
  {
    var inputs :| Replay(c.names, StartOf(c, s, d), inputs) == (t, Of(s.history, d));
    assert Replay(c.names, StartOf(c, s, d), inputs).1 == Of(s.history, d);
  }

  /** What a step of worker `w` changes. */
  lemma WorkChanges(c: Setup, s: State, w: nat, i: Worker.Input)
    requires w < |s.workers|
    ensures var p, r := s.workers[w], StepWork(c, s, w, i);
      var (u, es) := Worker.Next(c.names, p.task, i);
      && |es| <= 1 && r.deliveries == s.deliveries && |r.workers| == |s.workers|
      && (forall v :: 0 <= v < |s.workers| && v != w ==> r.workers[v] == s.workers[v])
      && r.workers[w].task == u && r.workers[w].n == p.n && r.workers[w].d == p.d
      && r.history == s.history + if es == [] then [] else [Entry(p.n, p.d, w, es[0])]
  {
  }

  lemma WorkOf(c: Setup, s: State, w: nat, i: Worker.Input, d: nat)
    requires w < |s.workers|
    ensures var p := s.workers[w];
      Of(StepWork(c, s, w, i).history, d) ==
        Of(s.history, d) + if p.d == d then Worker.Next(c.names, p.task, i).1 else []
  {
    WorkChanges(c, s, w, i);
    var p := s.workers[w];
    var es := Worker.Next(c.names, p.task, i).1;
    if es == [] {
      assert Of(s.history, d) + [] == Of(s.history, d);
    } else {
      OfSnoc(s.history, Entry(p.n, p.d, w, es[0]), d);
      assert es == [es[0]];
    }
  }

  lemma WorkerGetsOn(c: Setup, s: State, w: nat, i: Worker.Input)
    requires WellNumbered(s) && Tracked(c, s) && w < |s.workers| && !s.workers[w].task.Idle?
    requires Grows(s, StepWork(c, s, w, i))
    ensures var p, r := s.workers[w], StepWork(c, s, w, i);
      p.d < |r.deliveries| && r.deliveries[p.d] < |r.stream| && At(c, r, p.d, r.workers[w].task)
  {
    var p, r := s.workers[w], StepWork(c, s, w, i);
    WorkChanges(c, s, w, i);
    WorkOf(c, s, w, i, p.d);
    var inputs :| Replay(c.names, StartOf(c, s, p.d), inputs) == (p.task, Of(s.history, p.d));
    ReplaySnoc(c.names, StartOf(c, s, p.d), inputs, i);
    assert Replay(c.names, StartOf(c, r, p.d), inputs + [i]) == (r.workers[w].task, Of(r.history, p.d));
  }

  lemma WorkKeepsNumbered(c: Setup, s: State, w: nat, i: Worker.Input)
    requires WellNumbered(s) && w < |s.workers| && !s.workers[w].task.Idle? && Grows(s, StepWork(c, s, w, i))
    ensures WellNumbered(StepWork(c, s, w, i))
  {
    WorkChanges(c, s, w, i);
  }

  lemma WorkKeepsTracked(c: Setup, s: State, w: nat, i: Worker.Input)
    requires WellNumbered(s) && Tracked(c, s) && w < |s.workers| && !s.workers[w].task.Idle?
    requires Grows(s, StepWork(c, s, w, i))
    ensures WellNumbered(StepWork(c, s, w, i)) && Tracked(c, StepWork(c, s, w, i))
  {
    var p, r := s.workers[w], StepWork(c, s, w, i);
    WorkChanges(c, s, w, i);
    WorkKeepsNumbered(c, s, w, i);
    WorkerGetsOn(c, s, w, i);
    AtExplains(c, r, p.d, r.workers[w].task);
    forall d | 0 <= d < |s.deliveries| && d != p.d
      ensures Untouched(s, r, d)
    {
      WorkOf(c, s, w, i, d);
    }
    OthersTracked(c, s, r, w, p.d);
  }

  lemma StepGrows(c: Setup, s: State, a: Action)
    ensures Grows(s, Step(c, s, a))
  {
  }

  lemma StepKeepsTracked(c: Setup, s: State, a: Action)
    requires WellNumbered(s) && Tracked(c, s)
    ensures WellNumbered(Step(c, s, a)) && Tracked(c, Step(c, s, a))
  {
    StepGrows(c, s, a);
    match a
    case Deliver(w, n) => DeliverKeepsTracked(c, s, w, n);
    case Work(w, i) =>
      if w < |s.workers| {
        if s.workers[w].task.Idle? {
          assert StepWork(c, s, w, i) == s;
        } else {
          WorkKeepsTracked(c, s, w, i);
        }
      }
    case _ => QuietKeepsTracked(c, s, Step(c, s, a));
  }

  lemma {:induction false} RunKeepsTracked(c: Setup, s: State, acts: seq<Action>)
    requires WellNumbered(s) && Tracked(c, s)
    ensures WellNumbered(Run(c, s, acts)) && Tracked(c, Run(c, s, acts))
    decreases |acts|
  {
    if acts != [] {
      StepKeepsTracked(c, s, acts[0]);
      RunKeepsTracked(c, Step(c, s, acts[0]), acts[1..]);
    }
  }

  // ---------------------------------------------------------------- theorems

  /**
   * In every reachable state, for every delivery: what it has left in the history is a prefix of the
   * effects of handling its message under some oracle, and per channel a prefix of that channel's
   * sends and letter. So it never sends more than three times to a channel, nor after a success.
   */
  lemma DeliveryIsPrefix(c: Setup, workers: nat, acts: seq<Action>, d: nat)
    requires d < |Run(c, Init([], workers), acts).deliveries|
    ensures var s := Run(c, Init([], workers), acts);
      && s.deliveries[d] < |s.stream|
      && exists o :: Follows(c, Body(s, d), Of(s.history, d), o)
  {
    RunKeepsTracked(c, Init([], workers), acts);
    var s := Run(c, Init([], workers), acts);
    assert Explained(c, s, d);
    var inputs :| Replay(c.names, StartOf(c, s, d), inputs).1 == Of(s.history, d);
    var o := ReplayHasOracle(c.names, StartOf(c, s, d), inputs);
    PrefixFollows(c, Body(s, d), Of(s.history, d), o);
  }

  ghost predicate Follows(c: Setup, body: Bytes, done: seq<Worker.Effect>, o: Worker.Oracle) {
    && done <= Worker.Handle(c.names, body, c.decodes(body), o)
    && forall ch :: 0 <= ch < |c.names| && c.decodes(body) ==>
         Worker.Project(done, ch) <= Worker.ChannelEffects(c.names, body, o, ch)
  }

  lemma PrefixFollows(c: Setup, body: Bytes, done: seq<Worker.Effect>, o: Worker.Oracle)
    requires done <= Worker.Handle(c.names, body, c.decodes(body), o)
    ensures Follows(c, body, done, o)
  {
    forall ch | 0 <= ch < |c.names| && c.decodes(body)
      ensures Worker.Project(done, ch) <= Worker.ChannelEffects(c.names, body, o, ch)
    {
      ProjectPrefix(done, Worker.Handle(c.names, body, true, o), ch);
      Worker.TaskRuns(c.names, body, o, 0);
      Worker.FromChannelProjects(c.names, body, o, 0, ch);
    }
  }

  /** While its worker lives, what a delivery has done and what it still does make up the whole. */
  lemma DeliveryInProgress(c: Setup, workers: nat, acts: seq<Action>, w: nat)
    requires var s := Run(c, Init([], workers), acts); w < |s.workers| && !s.workers[w].task.Idle?
    ensures var s := Run(c, Init([], workers), acts); var p := s.workers[w];
      && p.d < |s.deliveries| && s.deliveries[p.d] == p.n < |s.stream| && Worker.TaskOk(c.names, p.task)
      && exists o :: Worker.Handle(c.names, Body(s, p.d), c.decodes(Body(s, p.d)), o) ==
           Of(s.history, p.d) + Worker.Effects(c.names, o, p.task)
  {
    RunKeepsTracked(c, Init([], workers), acts);
    var s := Run(c, Init([], workers), acts);
    var p := s.workers[w];
    var inputs :| Replay(c.names, StartOf(c, s, p.d), inputs) == (p.task, Of(s.history, p.d));
    var o := ReplayHasOracle(c.names, StartOf(c, s, p.d), inputs);
  }

  // ---------------------------------------------------------------- duplicates

  lemma {:induction false} TallyOf(h: seq<Entry>, d: nat, i: nat, j: nat, ch: nat)
    requires i < j < |h| && h[i].d == d && h[j].d == d
    requires Serves(h[i].effect, ch) && Serves(h[j].effect, ch)
    ensures Tally(Of(h, d), ch) >= 2
  {
    var front, last := h[..|h| - 1], h[|h| - 1];
    TallyConcat(Of(front, d), if last.d == d then [last.effect] else [], ch);
    if j < |h| - 1 {
      TallyOf(front, d, i, j, ch);
    } else {
      TallyOfOne(front, d, i, ch);
      assert [last.effect][1..] == [];
    }
  }

  lemma {:induction false} TallyOfOne(h: seq<Entry>, d: nat, i: nat, ch: nat)
    requires i < |h| && h[i].d == d && Serves(h[i].effect, ch)
    ensures Tally(Of(h, d), ch) >= 1
  {
    var front, last := h[..|h| - 1], h[|h| - 1];
    TallyConcat(Of(front, d), if last.d == d then [last.effect] else [], ch);
    if i < |h| - 1 {
      TallyOfOne(front, d, i, ch);
    } else {
      assert [last.effect][1..] == [];
    }
  }

  lemma FollowsOnce(c: Setup, body: Bytes, done: seq<Worker.Effect>, o: Worker.Oracle, ch: nat)
    requires Follows(c, body, done, o)
    ensures Tally(done, ch) <= 1
  {
    var all := Worker.Handle(c.names, body, c.decodes(body), o);
    ServedOnce(c.names, body, c.decodes(body), o, ch);
    assert all == done + all[|done|..];
    TallyConcat(done, all[|done|..], ch);
  }

  /** One delivery serves a channel at most once: by one successful send or by one letter. */
  lemma OncePerDelivery(c: Setup, workers: nat, acts: seq<Action>, i: nat, j: nat, ch: nat)
    requires var h := Run(c, Init([], workers), acts).history; i < j < |h| && h[i].d == h[j].d
    ensures var h := Run(c, Init([], workers), acts).history;
      !Serves(h[i].effect, ch) || !Serves(h[j].effect, ch)
  {
    RunKeepsTracked(c, Init([], workers), acts);
    var h := Run(c, Init([], workers), acts).history;
    TallyAtMostOne(c, workers, acts, h[i].d, ch);
    if Serves(h[i].effect, ch) && Serves(h[j].effect, ch) {
      TallyOf(h, h[i].d, i, j, ch);
    }
  }

  function Items(stream: seq<Record>): (r: seq<Item>)
    ensures |r| == |stream|
    ensures forall n :: 0 <= n < |stream| ==> r[n] == stream[n].item
  {
    seq(|stream|, n requires 0 <= n < |stream| => stream[n].item)
  }

  function Reply(s: State, a: Action, reply: Drainer.Reply): seq<Item> {
    if a == Gateway(Drainer.Publish(reply)) && s.gate.pc.Holding? then [s.gate.pc.item] else []
  }

  /** The items that were offered to the broker with this reply, in order. */
  function Replied(c: Setup, s: State, acts: seq<Action>, reply: Drainer.Reply): seq<Item>
    decreases |acts|
  {
    if acts == [] then []
    else Reply(s, acts[0], reply) + Replied(c, Step(c, s, acts[0]), acts[1..], reply)
  }

  lemma StepStores(c: Setup, s: State, a: Action)
    ensures Items(Step(c, s, a).stream) ==
      Items(s.stream) + (Reply(s, a, Drainer.Accepted) + Reply(s, a, Drainer.ErrorButStored))
  {
  }

  lemma AddUp(x: multiset<Item>, y: multiset<Item>, z: multiset<Item>, v: multiset<Item>, w: multiset<Item>)
    ensures (x + (y + z)) + v + w == x + (y + v) + (z + w)
  {
  }

  /** The broker holds a notification once for every Accepted and every ErrorButStored, and no more. */
  lemma {:induction false} StreamCounts(c: Setup, s: State, acts: seq<Action>)
    ensures multiset(Items(Run(c, s, acts).stream)) == multiset(Items(s.stream))
      + multiset(Replied(c, s, acts, Drainer.Accepted)) + multiset(Replied(c, s, acts, Drainer.ErrorButStored))
    decreases |acts|
  {
    if acts != [] {
      var a, r := acts[0], Step(c, s, acts[0]);
      StreamCounts(c, r, acts[1..]);
      StepStores(c, s, a);
      AddUp(multiset(Items(s.stream)),
        multiset(Reply(s, a, Drainer.Accepted)), multiset(Reply(s, a, Drainer.ErrorButStored)),
        multiset(Replied(c, r, acts[1..], Drainer.Accepted)), multiset(Replied(c, r, acts[1..], Drainer.ErrorButStored)));
    }
  }

  ghost predicate EachReported(s: State) {
    forall n :: 0 <= n < |s.stream| ==> s.stream[n].reported
  }

  lemma StepReported(c: Setup, s: State, a: Action)
    requires EachReported(s) && Reply(s, a, Drainer.ErrorButStored) == []
    ensures EachReported(Step(c, s, a))
  {
    if a.Gateway? {
      assert forall r :: r in Stored(s.gate, a.event) ==> r.reported;
    }
  }

  lemma {:induction false} AllReported(c: Setup, s: State, acts: seq<Action>)
    requires EachReported(s) && Replied(c, s, acts, Drainer.ErrorButStored) == []
    ensures EachReported(Run(c, s, acts))
    decreases |acts|
  {
    if acts != [] {
      assert Replied(c, s, acts, Drainer.ErrorButStored) ==
        Reply(s, acts[0], Drainer.ErrorButStored) + Replied(c, Step(c, s, acts[0]), acts[1..], Drainer.ErrorButStored);
      StepReported(c, s, acts[0]);
      AllReported(c, Step(c, s, acts[0]), acts[1..]);
    }
  }

  lemma {:induction false} ReportedAll(stream: seq<Record>)
    requires forall n :: 0 <= n < |stream| ==> stream[n].reported
    ensures Reported(stream) == Items(stream)
  {
    if stream != [] {
      ReportedAll(stream[..|stream| - 1]);
    }
  }

  /**
   * No duplicates without cause: for a notification pushed once, if nothing is redelivered and no
   * publish error hides a stored message, each channel gets one successful send or one letter at most.
   */
  lemma AtMostOnce(c: Setup, workers: nat, acts: seq<Action>, i: nat, j: nat, ch: nat)
    requires c.capacity >= 1 && Replied(c, Init([], workers), acts, Drainer.ErrorButStored) == []
    requires var s := Run(c, Init([], workers), acts);
      && (forall d, e :: 0 <= d < e < |s.deliveries| ==> s.deliveries[d] != s.deliveries[e])
      && i < j < |s.history| && Serves(s.history[i].effect, ch) && Serves(s.history[j].effect, ch)
    ensures var s := Run(c, Init([], workers), acts);
      var m, n := s.history[i].n, s.history[j].n;
      && m < |s.stream| && n < |s.stream|
      && (s.stream[m].item == s.stream[n].item ==> multiset(s.gate.arrived)[s.stream[n].item] >= 2)
  {
    var s := Run(c, Init([], workers), acts);
    RunKeepsTracked(c, Init([], workers), acts);
    if s.history[i].n == s.history[j].n {
      OncePerDelivery(c, workers, acts, i, j, ch);
    } else {
      TwoRecords(c, workers, acts, s.history[i].n, s.history[j].n);
    }
  }

  /** Without publish errors that hide a stored message, two records of an item are two pushes of it. */
  lemma TwoRecords(c: Setup, workers: nat, acts: seq<Action>, m: nat, n: nat)
    requires c.capacity >= 1 && Replied(c, Init([], workers), acts, Drainer.ErrorButStored) == []
    requires var s := Run(c, Init([], workers), acts); m < |s.stream| && n < |s.stream| && m != n
    ensures var s := Run(c, Init([], workers), acts);
      s.stream[m].item == s.stream[n].item ==> multiset(s.gate.arrived)[s.stream[n].item] >= 2
  {
    var s := Run(c, Init([], workers), acts);
    AllReported(c, Init([], workers), acts);
    ReportedAll(s.stream);
    PipelineSafety.Accounting(c, workers, acts);
    if s.stream[m].item == s.stream[n].item {
      OccursTwice(Items(s.stream), if m < n then m else n, if m < n then n else m);
    }
  }

  // ---------------------------------------------------------------- the bound with redelivery

  /** How often channel `ch` has been served for message `n`, over all deliveries. */
  function Servings(h: seq<Entry>, n: nat, ch: nat): nat {
    if h == [] then 0
    else
      var last := h[|h| - 1];
      Servings(h[..|h| - 1], n, ch) + if last.n == n && Serves(last.effect, ch) then 1 else 0
  }

  /** The part of delivery `d` in that. */
  function ServingsOf(h: seq<Entry>, deliveries: seq<nat>, d: nat, n: nat, ch: nat): nat
    requires d < |deliveries|
  {
    if deliveries[d] == n then Tally(Of(h, d), ch) else 0
  }

  /** The sum over the first `k` deliveries. */
  function ServingsBy(h: seq<Entry>, deliveries: seq<nat>, k: nat, n: nat, ch: nat): nat
    requires k <= |deliveries|
  {
    if k == 0 then 0
    else ServingsBy(h, deliveries, k - 1, n, ch) + ServingsOf(h, deliveries, k - 1, n, ch)
  }

  lemma {:induction false} ServingsByNone(deliveries: seq<nat>, k: nat, n: nat, ch: nat)
    requires k <= |deliveries|
    ensures ServingsBy([], deliveries, k, n, ch) == 0
  {
    if k > 0 {
      ServingsByNone(deliveries, k - 1, n, ch);
      assert Of([], k - 1) == [];
    }
  }

  lemma ServingsOfSnoc(h: seq<Entry>, e: Entry, deliveries: seq<nat>, d: nat, n: nat, ch: nat)
    requires d < |deliveries| && e.d < |deliveries| && deliveries[e.d] == e.n
    ensures ServingsOf(h + [e], deliveries, d, n, ch) ==
      ServingsOf(h, deliveries, d, n, ch) + if e.d == d && e.n == n && Serves(e.effect, ch) then 1 else 0
  {
    OfSnoc(h, e, d);
    if e.d == d {
      TallyConcat(Of(h, d), [e.effect], ch);
      assert [e.effect][1..] == [];
    } else {
      assert Of(h, d) + [] == Of(h, d);
    }
  }

  /** A new entry counts for its own delivery only. */
  lemma {:induction false} ServingsBySnoc(h: seq<Entry>, e: Entry, deliveries: seq<nat>, k: nat, n: nat, ch: nat)
    requires k <= |deliveries| && e.d < |deliveries| && deliveries[e.d] == e.n
    ensures ServingsBy(h + [e], deliveries, k, n, ch) ==
      ServingsBy(h, deliveries, k, n, ch) + if e.d < k && e.n == n && Serves(e.effect, ch) then 1 else 0
  {
    if k > 0 {
      ServingsBySnoc(h, e, deliveries, k - 1, n, ch);
      ServingsOfSnoc(h, e, deliveries, k - 1, n, ch);
    }
  }

  lemma {:induction false} ServingsSplit(h: seq<Entry>, deliveries: seq<nat>, n: nat, ch: nat)
    requires forall i :: 0 <= i < |h| ==> h[i].d < |deliveries| && deliveries[h[i].d] == h[i].n
    ensures Servings(h, n, ch) == ServingsBy(h, deliveries, |deliveries|, n, ch)
  {
    if h == [] {
      ServingsByNone(deliveries, |deliveries|, n, ch);
    } else {
      var front, last := h[..|h| - 1], h[|h| - 1];
      ServingsSplit(front, deliveries, n, ch);
      ServingsBySnoc(front, last, deliveries, |deliveries|, n, ch);
      assert h == front + [last];
    }
  }

  lemma TallyAtMostOne(c: Setup, workers: nat, acts: seq<Action>, d: nat, ch: nat)
    requires d < |Run(c, Init([], workers), acts).deliveries|
    ensures Tally(Of(Run(c, Init([], workers), acts).history, d), ch) <= 1
  {
    DeliveryIsPrefix(c, workers, acts, d);
    var s := Run(c, Init([], workers), acts);
    var o :| Follows(c, Body(s, d), Of(s.history, d), o);
    FollowsOnce(c, Body(s, d), Of(s.history, d), o, ch);
  }

  lemma {:induction false} OneEach(h: seq<Entry>, deliveries: seq<nat>, k: nat, n: nat, ch: nat)
    requires k <= |deliveries| && forall d: nat :: d < k ==> Tally(Of(h, d), ch) <= 1
    ensures ServingsBy(h, deliveries, k, n, ch) <= multiset(deliveries[..k])[n]
  {
    if k > 0 {
      OneEach(h, deliveries, k - 1, n, ch);
      assert deliveries[..k] == deliveries[..k - 1] + [deliveries[k - 1]];
    }
  }

  /** In every run a channel is served for a message at most as often as the message is delivered. */
  lemma AtMostPerDelivery(c: Setup, workers: nat, acts: seq<Action>, n: nat, ch: nat)
    ensures var s := Run(c, Init([], workers), acts);
      Servings(s.history, n, ch) <= multiset(s.deliveries)[n]
  {
    RunKeepsTracked(c, Init([], workers), acts);
    var s := Run(c, Init([], workers), acts);
    ServingsSplit(s.history, s.deliveries, n, ch);
    forall d: nat | d < |s.deliveries|
      ensures Tally(Of(s.history, d), ch) <= 1
    {
      TallyAtMostOne(c, workers, acts, d, ch);
    }
    OneEach(s.history, s.deliveries, |s.deliveries|, n, ch);
    assert s.deliveries[..|s.deliveries|] == s.deliveries;
  }
}
