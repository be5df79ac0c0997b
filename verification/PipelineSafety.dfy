/** End-to-end accounting, for every run of the pipeline. */
module PipelineSafety {
  import opened PriorityOrder
  import opened DeadLetters
  import opened Pipeline
  import Drainer
  import Worker
  import Sequences

  // ---------------------------------------------------------------- the gateway

  lemma ArrivedKept(g: Drainer.State, e: Drainer.Event)
    ensures g.arrived <= Drainer.Step(g, e).arrived
  {
    if e.Arrive? {
      assert Drainer.Step(g, e).arrived == g.arrived + [e.item];
    } else {
      assert Drainer.Step(g, e).arrived == g.arrived;
    }
  }

  lemma StoredCounts(s: State, e: Drainer.Event)
    requires multiset(s.gate.published) == multiset(Reported(s.stream))
    ensures multiset(Drainer.Step(s.gate, e).published) == multiset(Reported(s.stream + Stored(s.gate, e)))
  {
    if e.Publish? && s.gate.pc.Holding? && !e.reply.ErrorNotStored? {
      ReportedSnoc(s.stream, Record(s.gate.pc.item, e.reply.Accepted?, false));
    } else {
      assert s.stream + Stored(s.gate, e) == s.stream;
    }
  }

  lemma StoredArrived(s: State, e: Drainer.Event)
    requires Drainer.Inv(s.gate)
    ensures forall r :: r in Stored(s.gate, e) ==> r.item in s.gate.arrived && !r.acked
  {
    if s.gate.pc.Holding? {
      assert s.gate.pc.item in multiset(Drainer.Hand(s.gate.pc));
      assert s.gate.pc.item in multiset(s.gate.arrived);
    }
  }

  lemma GatewayKeepsStream(c: Setup, s: State, e: Drainer.Event)
    requires Inv(c, s)
    ensures StreamInv(c, Step(c, s, Gateway(e)))
  {
    var r := Step(c, s, Gateway(e));
    StoredCounts(s, e);
    StoredArrived(s, e);
    ArrivedKept(s.gate, e);
    assert Grows(s, r);
    forall n | 0 <= n < |r.stream|
      ensures r.stream[n].item in r.gate.arrived
      ensures r.stream[n].acked ==> Settled(c, r, n)
    {
      if n < |s.stream| {
        if s.stream[n].acked {
          SettledGrows(c, s, r, n);
        }
      } else {
        assert r.stream[n] in Stored(s.gate, e);
      }
    }
  }

  /** Growth alone keeps the workers and the history consistent. */
  lemma GrowthKeepsWorkers(c: Setup, s: State, r: State)
    requires WorkersInv(c, s) && Grows(s, r) && r.workers == s.workers
    ensures WorkersInv(c, r)
  {
    forall w | 0 <= w < |r.workers|
      ensures TaskInv(c, r, r.workers[w])
    {
      TaskGrows(c, s, r, s.workers[w]);
    }
  }

  lemma GatewayKeepsInv(c: Setup, s: State, e: Drainer.Event)
    requires Inv(c, s)
    ensures Inv(c, Step(c, s, Gateway(e)))
  {
    var r := Step(c, s, Gateway(e));
    Drainer.StepKeepsInv(s.gate, e);
    GatewayKeepsStream(c, s, e);
    GatewayGrows(c, s, e);
    GrowthKeepsWorkers(c, s, r);
    QuietKeepsHistory(c, s, r);
  }

  lemma GatewayGrows(c: Setup, s: State, e: Drainer.Event)
    ensures var r := Step(c, s, Gateway(e));
      Grows(s, r) && r.workers == s.workers && r.history == s.history && r.gate == Drainer.Step(s.gate, e)
  {
  }

  // ---------------------------------------------------------------- the workers

  /** Only worker `w` and the history have changed, and `w` is fine. */
  lemma OneWorkerKeepsWorkers(c: Setup, s: State, r: State, w: nat)
    requires WorkersInv(c, s) && Grows(s, r) && w < |s.workers|
    requires |r.workers| == |s.workers| && r.workers == s.workers[w := r.workers[w]]
    requires TaskInv(c, r, r.workers[w]) && r.workers[w].dlq == Window(r.workers[w].epoch, c.capacity)
    ensures WorkersInv(c, r)
  {
    forall v | 0 <= v < |r.workers|
      ensures TaskInv(c, r, r.workers[v]) && r.workers[v].dlq == Window(r.workers[v].epoch, c.capacity)
    {
      if v != w {
        TaskGrows(c, s, r, s.workers[v]);
      }
    }
  }

  lemma SameStreamKeepsStream(c: Setup, s: State, r: State)
    requires StreamInv(c, s) && Grows(s, r) && r.stream == s.stream && r.gate == s.gate
    ensures StreamInv(c, r)
  {
    forall n | 0 <= n < |r.stream| && r.stream[n].acked
      ensures Settled(c, r, n)
    {
      SettledGrows(c, s, r, n);
    }
  }

  lemma EntryKeepsHistory(c: Setup, s: State, r: State, e: Entry)
    requires HistoryInv(c, s) && Grows(s, r) && r.history == s.history + [e] && EntryOk(c, r, e)
    ensures HistoryInv(c, r)
  {
    forall i | 0 <= i < |r.history|
      ensures EntryOk(c, r, r.history[i])
    {
      if i < |s.history| {
        assert EntryOk(c, s, s.history[i]);
      }
    }
  }

  lemma QuietKeepsHistory(c: Setup, s: State, r: State)
    requires HistoryInv(c, s) && Grows(s, r) && r.history == s.history
    ensures HistoryInv(c, r)
  {
    assert forall i :: 0 <= i < |s.history| ==> EntryOk(c, s, s.history[i]);
  }

  /** A worker takes up task `t` for message `n` and nothing else happens. */
  lemma QuietKeepsInv(c: Setup, s: State, r: State, w: nat)
    requires Inv(c, s) && w < |s.workers|
    requires |r.workers| == |s.workers| && r == s.(workers := s.workers[w := r.workers[w]], deliveries := r.deliveries)
    requires TaskInv(c, r, r.workers[w]) && r.workers[w].dlq == Window(r.workers[w].epoch, c.capacity)
    ensures Inv(c, r)
  {
    SameStreamKeepsStream(c, s, r);
    OneWorkerKeepsWorkers(c, s, r, w);
    QuietKeepsHistory(c, s, r);
  }

  /** A worker does something for its message: one entry, and possibly one letter. */
  lemma EntryKeepsInv(c: Setup, s: State, r: State, w: nat, e: Entry)
    requires Inv(c, s) && w < |s.workers|
    requires |r.workers| == |s.workers| && EntryOk(c, r, e)
    requires r == s.(workers := s.workers[w := r.workers[w]], history := s.history + [e])
    requires TaskInv(c, r, r.workers[w]) && r.workers[w].dlq == Window(r.workers[w].epoch, c.capacity)
    ensures Inv(c, r)
  {
    SameStreamKeepsStream(c, s, r);
    OneWorkerKeepsWorkers(c, s, r, w);
    EntryKeepsHistory(c, s, r, e);
  }

  lemma ToChannelOk(c: Setup, s: State, p: Process, body: Bytes, ch: nat)
    requires Carries(c, s, p.n, body) && ch <= |c.names| && ServedBelow(s.history, p.n, ch)
    requires p.task == Worker.ToChannel(c.names, body, ch)
    ensures TaskInv(c, s, p)
  {
  }

  lemma DeliverKeepsInv(c: Setup, s: State, w: nat, n: nat)
    requires Inv(c, s)
    ensures Inv(c, Step(c, s, Deliver(w, n)))
  {
    var r := Step(c, s, Deliver(w, n));
    if w < |s.workers| && s.workers[w].task.Idle? && n < |s.stream| && !s.stream[n].acked {
      var body := s.stream[n].item.payload;
      if c.decodes(body) {
        ToChannelOk(c, r, r.workers[w], body, 0);
      }
      QuietKeepsInv(c, s, r, w);
    }
  }

  lemma SendingKeepsInv(c: Setup, s: State, w: nat, i: Worker.Input)
    requires Inv(c, s) && w < |s.workers| && s.workers[w].task.Sending?
    ensures Inv(c, StepWork(c, s, w, i))
  {
    var p, r := s.workers[w], StepWork(c, s, w, i);
    var body, ch, a := p.task.body, p.task.ch, p.task.attempt;
    assert TaskInv(c, s, p);
    var e := Worker.Sent(ch, a, i.send.None?);
    assert r.history == s.history + [Entry(p.n, p.d, w, e)];
    assert Grows(s, r);
    if i.send.None? {
      ServeNext(s.history, Entry(p.n, p.d, w, e), ch);
      ToChannelOk(c, r, r.workers[w], body, ch + 1);
    } else {
      ServedGrows(s.history, r.history, p.n, ch);
    }
    EntryKeepsInv(c, s, r, w, Entry(p.n, p.d, w, e));
  }

  lemma WaitingKeepsInv(c: Setup, s: State, w: nat, i: Worker.Input)
    requires Inv(c, s) && w < |s.workers| && s.workers[w].task.Waiting?
    ensures Inv(c, StepWork(c, s, w, i))
  {
    assert TaskInv(c, s, s.workers[w]);
    QuietKeepsInv(c, s, StepWork(c, s, w, i), w);
  }

  lemma BuryKeepsWindow(p: Process, letter: Message, capacity: nat)
    requires capacity >= 1 && p.dlq == Window(p.epoch, capacity)
    ensures Bury(p, letter, capacity).dlq == Window(Bury(p, letter, capacity).epoch, capacity)
  {
    WindowStep(p.epoch, letter, capacity);
  }

  lemma BuryingKeepsInv(c: Setup, s: State, w: nat, i: Worker.Input)
    requires Inv(c, s) && c.capacity >= 1 && w < |s.workers| && s.workers[w].task.Burying?
    ensures Inv(c, StepWork(c, s, w, i))
  {
    var p, r := s.workers[w], StepWork(c, s, w, i);
    var body, ch := p.task.body, p.task.ch;
    assert TaskInv(c, s, p);
    var letter := Stamp(Worker.Letter(c.names[ch], body, p.task.why), i.now);
    var e := Worker.Buried(ch, letter);
    assert r.history == s.history + [Entry(p.n, p.d, w, e)];
    assert Grows(s, r);
    ServeNext(s.history, Entry(p.n, p.d, w, e), ch);
    var q := p.(task := Worker.ToChannel(c.names, body, ch + 1));
    assert r.workers[w] == Bury(q, letter, c.capacity);
    BuryKeepsWindow(q, letter, c.capacity);
    ToChannelOk(c, r, r.workers[w], body, ch + 1);
    EntryKeepsInv(c, s, r, w, Entry(p.n, p.d, w, e));
  }

  lemma AckingKeepsInv(c: Setup, s: State, w: nat, i: Worker.Input)
    requires Inv(c, s) && w < |s.workers| && s.workers[w].task.Acking?
    ensures Inv(c, StepWork(c, s, w, i))
  {
    var p, r := s.workers[w], StepWork(c, s, w, i);
    assert TaskInv(c, s, p);
    assert Grows(s, r);
    AckKeepsStream(c, s, r, p.n);
    OneWorkerKeepsWorkers(c, s, r, w);
    EntryKeepsHistory(c, s, r, Entry(p.n, p.d, w, Worker.Acked));
  }

  lemma AckKeepsStream(c: Setup, s: State, r: State, n: nat)
    requires StreamInv(c, s) && Grows(s, r) && n < |s.stream| && Settled(c, s, n)
    requires r.gate == s.gate && r.stream == s.stream[n := s.stream[n].(acked := true)]
    ensures StreamInv(c, r)
  {
    ReportedAck(s.stream, n);
    forall m | 0 <= m < |r.stream|
      ensures r.stream[m].item in r.gate.arrived
      ensures r.stream[m].acked ==> Settled(c, r, m)
    {
      if m == n || s.stream[m].acked {
        SettledGrows(c, s, r, m);
      }
    }
  }

  lemma StepKeepsInv(c: Setup, s: State, a: Action)
    requires Inv(c, s) && c.capacity >= 1
    ensures Inv(c, Step(c, s, a))
  {
    match a
    case Gateway(e) => GatewayKeepsInv(c, s, e);
    case Deliver(w, n) => DeliverKeepsInv(c, s, w, n);
    case Work(w, i) =>
      if w < |s.workers| {
        match s.workers[w].task
        case Idle => assert StepWork(c, s, w, i) == s;
        case Sending(_, _, _) => SendingKeepsInv(c, s, w, i);
        case Waiting(_, _, _) => WaitingKeepsInv(c, s, w, i);
        case Burying(_, _, _) => BuryingKeepsInv(c, s, w, i);
        case Acking => AckingKeepsInv(c, s, w, i);
      }
    case AckLost(w) =>
      if w < |s.workers| && s.workers[w].task.Acking? {
        QuietKeepsInv(c, s, Step(c, s, a), w);
      }
    case Crash(w) =>
      if w < |s.workers| {
        QuietKeepsInv(c, s, Step(c, s, a), w);
      }
  }

  lemma {:induction false} RunKeepsInv(c: Setup, s: State, acts: seq<Action>)
    requires Inv(c, s) && c.capacity >= 1
    ensures Inv(c, Run(c, s, acts))
    decreases |acts|
  {
    if acts != [] {
      StepKeepsInv(c, s, acts[0]);
      RunKeepsInv(c, Step(c, s, acts[0]), acts[1..]);
    }
  }

  lemma Reachable(c: Setup, workers: nat, acts: seq<Action>)
    requires c.capacity >= 1
    ensures Inv(c, Run(c, Init([], workers), acts))
  {
    RunKeepsInv(c, Init([], workers), acts);
  }

  // ---------------------------------------------------------------- theorems

  /** Where a notification is once the broker has taken it: unacknowledged, or done with every channel. */
  ghost predicate Accounted(c: Setup, s: State, n: nat)
    requires n < |s.stream|
  {
    !s.stream[n].acked || Settled(c, s, n)
  }

  /**
   * Every notification pushed, counted as often as it was pushed, is in the queue, in the drainer's
   * hand, or in a stream message that its publisher knows of; and every stream message, known or
   * not, is unacknowledged or has had a successful send or a DLQ push on every registered channel.
   * This holds under crashes of workers, redelivery, lost acks, and publish errors of both kinds.
   */
  lemma Accounting(c: Setup, workers: nat, acts: seq<Action>)
    requires c.capacity >= 1
    ensures var s := Run(c, Init([], workers), acts);
      && multiset(s.gate.arrived) ==
           multiset(s.gate.heap) + multiset(Drainer.Hand(s.gate.pc)) + multiset(Reported(s.stream))
      && forall n :: 0 <= n < |s.stream| ==> Accounted(c, s, n)
  {
    Reachable(c, workers, acts);
  }

  lemma {:induction false} ReportedMember(stream: seq<Record>, x: Item)
    requires x in Reported(stream)
    ensures exists n :: 0 <= n < |stream| && stream[n].item == x && stream[n].reported
  {
    var front, last := stream[..|stream| - 1], stream[|stream| - 1];
    if last.reported && last.item == x {
      assert stream[|stream| - 1].item == x;
    } else {
      ReportedMember(front, x);
      var n :| 0 <= n < |front| && front[n].item == x && front[n].reported;
      assert stream[n].item == x;
    }
  }

  /** The same for one notification. */
  lemma FateOf(c: Setup, workers: nat, acts: seq<Action>, x: Item)
    requires c.capacity >= 1 && x in Run(c, Init([], workers), acts).gate.arrived
    ensures var s := Run(c, Init([], workers), acts);
      || x in s.gate.heap
      || x in Drainer.Hand(s.gate.pc)
      || exists n :: 0 <= n < |s.stream| && s.stream[n].item == x && s.stream[n].reported && Accounted(c, s, n)
  {
    Accounting(c, workers, acts);
    var s := Run(c, Init([], workers), acts);
    assert x in multiset(s.gate.arrived);
    if x !in s.gate.heap && x !in Drainer.Hand(s.gate.pc) {
      assert x in multiset(Reported(s.stream));
      ReportedMember(s.stream, x);
    }
  }

  /** When nothing is left to do, every decodable notification has been dealt with on every channel. */
  lemma Quiescent(c: Setup, workers: nat, acts: seq<Action>, x: Item)
    requires c.capacity >= 1
    requires var s := Run(c, Init([], workers), acts);
      && s.gate.heap == [] && Drainer.Hand(s.gate.pc) == []
      && (forall n :: 0 <= n < |s.stream| ==> s.stream[n].acked)
      && x in s.gate.arrived && c.decodes(x.payload)
    ensures var s := Run(c, Init([], workers), acts);
      exists n :: 0 <= n < |s.stream| && s.stream[n].item == x && ServedBelow(s.history, n, |c.names|)
  {
    FateOf(c, workers, acts, x);
    var s := Run(c, Init([], workers), acts);
    var n :| 0 <= n < |s.stream| && s.stream[n].item == x && s.stream[n].reported && Accounted(c, s, n);
    assert s.stream[n].acked;
  }

  /** No send and no letter comes out of nowhere: each is for a notification that arrived. */
  lemma NothingInvented(c: Setup, workers: nat, acts: seq<Action>, i: nat)
    requires c.capacity >= 1 && i < |Run(c, Init([], workers), acts).history|
    ensures var s := Run(c, Init([], workers), acts);
      var e := s.history[i];
      && e.n < |s.stream| && s.stream[e.n].item in s.gate.arrived
      && (e.effect.Buried? ==> e.effect.letter.value == s.stream[e.n].item.payload)
      && (!e.effect.Acked? ==> e.effect.ch < |c.names|)
  {
    Reachable(c, workers, acts);
    var s := Run(c, Init([], workers), acts);
    assert EntryOk(c, s, s.history[i]);
  }

  // ---------------------------------------------------------------- the loop inside the pipeline

  function Tag(n: nat, d: nat, w: nat, es: seq<Worker.Effect>): (r: seq<Entry>)
    ensures |r| == |es|
    ensures forall i :: 0 <= i < |es| ==> r[i] == Entry(n, d, w, es[i])
  {
    seq(|es|, i requires 0 <= i < |es| => Entry(n, d, w, es[i]))
  }

  /** The actions of one worker that nobody interrupts. */
  function Uninterrupted(c: Setup, w: nat, o: Worker.Oracle, t: Worker.Task): seq<Action>
    requires Worker.TaskOk(c.names, t)
    decreases Worker.Remaining(c.names, t)
  {
    if t.Idle? then []
    else
      var i := Worker.InputAt(o, t);
      [Work(w, i)] + Uninterrupted(c, w, o, Worker.Next(c.names, t, i).0)
  }

  lemma WorkStep(c: Setup, s: State, w: nat, i: Worker.Input)
    requires w < |s.workers| && !s.workers[w].task.Idle? && Worker.TaskOk(c.names, s.workers[w].task)
    ensures var p, r := s.workers[w], StepWork(c, s, w, i);
      var (u, es) := Worker.Next(c.names, p.task, i);
      && |r.workers| == |s.workers| && r.workers[w].task == u && r.workers[w].n == p.n && r.workers[w].d == p.d
      && r.history == s.history + Tag(p.n, p.d, w, es)
  {
    var p := s.workers[w];
    var (u, es) := Worker.Next(c.names, p.task, i);
    assert |es| <= 1;
    assert es != [] ==> Tag(p.n, p.d, w, es) == [Entry(p.n, p.d, w, es[0])];
  }

  /** One worker left alone leaves exactly the effects of its delivery loop in the history. */
  lemma {:induction false} WorkerRunsLoop(c: Setup, s: State, w: nat, o: Worker.Oracle, t: Worker.Task)
    requires w < |s.workers| && s.workers[w].task == t && Worker.TaskOk(c.names, t)
    ensures Run(c, s, Uninterrupted(c, w, o, t)).history ==
      s.history + Tag(s.workers[w].n, s.workers[w].d, w, Worker.Effects(c.names, o, t))
    decreases Worker.Remaining(c.names, t)
  {
    var n, d := s.workers[w].n, s.workers[w].d;
    if !t.Idle? {
      var i := Worker.InputAt(o, t);
      var (u, es) := Worker.Next(c.names, t, i);
      var r := StepWork(c, s, w, i);
      WorkStep(c, s, w, i);
      Worker.Unfold(c.names, o, t, u, es);
      WorkerRunsLoop(c, r, w, o, u);
      var rest := Worker.Effects(c.names, o, u);
      assert Tag(n, d, w, es + rest) == Tag(n, d, w, es) + Tag(n, d, w, rest);
      Sequences.Associate(s.history, Tag(n, d, w, es), Tag(n, d, w, rest));
      RunFirst(c, s, Work(w, i), Uninterrupted(c, w, o, u));
    }
  }

  lemma RunFirst(c: Setup, s: State, a: Action, rest: seq<Action>)
    ensures Run(c, s, [a] + rest) == Run(c, Step(c, s, a), rest)
  {
    assert ([a] + rest)[1..] == rest;
  }

  /** In particular: a delivery taken up by a worker that is then left alone is HandleMessage. */
  lemma DeliveryIsHandle(c: Setup, s: State, w: nat, n: nat, o: Worker.Oracle)
    requires w < |s.workers| && s.workers[w].task.Idle? && n < |s.stream| && !s.stream[n].acked
    ensures var body := s.stream[n].item.payload;
      var t := Worker.Start(c.names, body, c.decodes(body));
      Run(c, Step(c, s, Deliver(w, n)), Uninterrupted(c, w, o, t)).history ==
        s.history + Tag(n, |s.deliveries|, w, Worker.Handle(c.names, body, c.decodes(body), o))
  {
    var body := s.stream[n].item.payload;
    WorkerRunsLoop(c, Step(c, s, Deliver(w, n)), w, o, Worker.Start(c.names, body, c.decodes(body)));
  }
}
