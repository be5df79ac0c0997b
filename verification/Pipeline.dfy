/**
 * From the gateway's queue to the acknowledged delivery: the drainer, the broker as a bag of
 * unacknowledged messages, any number of worker processes, and everything that can go wrong between
 * them. Any sequence of actions is a run; an action that is not possible changes nothing.
 */
module Pipeline {
  import opened PriorityOrder
  import opened DeadLetters
  import Drainer
  import Worker
  import opened Replays

  /** What does not change: the registered channels, which payloads decode, and the DLQ capacity. */
  datatype Setup = Setup(names: seq<string>, decodes: Bytes -> bool, capacity: nat)

  /** A message that the broker has stored; `reported` tells whether Publish returned no error. */
  datatype Record = Record(item: Item, reported: bool, acked: bool)

  /**
   * A worker process: its delivery in progress (number `d`, of stream message `n`), its in-memory DLQ,
   * and how long the history was when it started.
   */
  datatype Process = Process(task: Worker.Task, n: nat, d: nat, dlq: seq<Message>, epoch: seq<Message>, born: nat)

  /** Something worker `w` did for stream message `n` in delivery `d`. */
  datatype Entry = Entry(n: nat, d: nat, w: nat, effect: Worker.Effect)

  datatype State = State(
    gate: Drainer.State,
    stream: seq<Record>,
    workers: seq<Process>,
    deliveries: seq<nat>, // which message each delivery was of
    history: seq<Entry>
  )

  datatype Action =
    | Gateway(event: Drainer.Event)
    | Deliver(w: nat, n: nat) // first delivery or redelivery, to any idle worker
    | Work(w: nat, input: Worker.Input)
    | AckLost(w: nat)
    | Crash(w: nat)

  const FRESH := Process(Worker.Idle, 0, 0, [], [], 0)

  function Init(items: seq<Item>, workers: nat): State {
    State(Drainer.Begin(items), [], seq(workers, _ => FRESH), [], [])
  }

  /** What the broker keeps of a publish attempt. */
  function Stored(gate: Drainer.State, e: Drainer.Event): seq<Record> {
    if !e.Publish? || !gate.pc.Holding? || e.reply.ErrorNotStored? then []
    else [Record(gate.pc.item, e.reply.Accepted?, false)]
  }

  function Bury(p: Process, letter: Message, capacity: nat): Process {
    var kept := if |p.dlq| >= capacity && p.dlq != [] then p.dlq[1..] else p.dlq;
    p.(dlq := kept + [letter], epoch := p.epoch + [letter])
  }

  /** The consequences of an effect outside the worker's own task. */
  function Enact(s: State, w: nat, n: nat, e: Worker.Effect, capacity: nat): State
    requires w < |s.workers|
  {
    var r := s.(history := s.history + [Entry(n, s.workers[w].d, w, e)]);
    match e
    case Sent(_, _, _) => r
    case Buried(_, letter) => r.(workers := s.workers[w := Bury(s.workers[w], letter, capacity)])
    case Acked => if n < |s.stream| then r.(stream := s.stream[n := s.stream[n].(acked := true)]) else r
  }

  function SetTask(s: State, w: nat, t: Worker.Task): State
    requires w < |s.workers|
  {
    s.(workers := s.workers[w := s.workers[w].(task := t)])
  }

  function StepWork(c: Setup, s: State, w: nat, i: Worker.Input): State
    requires w < |s.workers|
  {
    var p := s.workers[w];
    var (t, es) := Worker.Next(c.names, p.task, i);
    var r := SetTask(s, w, t);
    if es == [] then r else Enact(r, w, p.n, es[0], c.capacity)
  }

  function Step(c: Setup, s: State, a: Action): State {
    match a
    case Gateway(e) => s.(gate := Drainer.Step(s.gate, e), stream := s.stream + Stored(s.gate, e))
    case Deliver(w, n) =>
      if w < |s.workers| && s.workers[w].task.Idle? && n < |s.stream| && !s.stream[n].acked then
        var body := s.stream[n].item.payload;
        var p := s.workers[w].(task := Worker.Start(c.names, body, c.decodes(body)), n := n, d := |s.deliveries|);
        s.(workers := s.workers[w := p], deliveries := s.deliveries + [n])
      else s
    case Work(w, i) => if w < |s.workers| then StepWork(c, s, w, i) else s
    case AckLost(w) =>
      if w < |s.workers| && s.workers[w].task.Acking? then SetTask(s, w, Worker.Idle) else s
    case Crash(w) => if w < |s.workers| then s.(workers := s.workers[w := FRESH.(born := |s.history|)]) else s
  }

  function Run(c: Setup, s: State, acts: seq<Action>): State
    decreases |acts|
  {
    if acts == [] then s else Run(c, Step(c, s, acts[0]), acts[1..])
  }

  // ---------------------------------------------------------------- what must hold

  /** Items of the messages whose publisher was told that they are stored. */
  function Reported(stream: seq<Record>): seq<Item> {
    if stream == [] then []
    else
      var last := stream[|stream| - 1];
      Reported(stream[..|stream| - 1]) + if last.reported then [last.item] else []
  }

  /** Channel `ch` has received message `n`, or its failure has been pushed to a DLQ. */
  ghost predicate Served(h: seq<Entry>, n: nat, ch: nat) {
    exists i :: 0 <= i < |h| && h[i].n == n && Serves(h[i].effect, ch)
  }

  ghost predicate ServedBelow(h: seq<Entry>, n: nat, k: nat) {
    forall ch: nat :: ch < k ==> Served(h, n, ch)
  }

  /** Message `n` may be acknowledged. */
  ghost predicate Settled(c: Setup, s: State, n: nat)
    requires n < |s.stream|
  {
    c.decodes(s.stream[n].item.payload) ==> ServedBelow(s.history, n, |c.names|)
  }

  ghost predicate StreamInv(c: Setup, s: State) {
    && multiset(s.gate.published) == multiset(Reported(s.stream))
    && (forall n :: 0 <= n < |s.stream| ==> s.stream[n].item in s.gate.arrived)
    && (forall n :: 0 <= n < |s.stream| && s.stream[n].acked ==> Settled(c, s, n))
  }

  /** A delivery carries its message's bytes and has served the channels it has passed. */
  ghost predicate TaskInv(c: Setup, s: State, p: Process) {
    && Worker.TaskOk(c.names, p.task)
    && (!p.task.Idle? ==> p.n < |s.stream|)
    && match p.task
       case Idle => true
       case Acking => Settled(c, s, p.n)
       case Sending(body, ch, _) => Carries(c, s, p.n, body) && ServedBelow(s.history, p.n, ch)
       case Waiting(body, ch, _) => Carries(c, s, p.n, body) && ServedBelow(s.history, p.n, ch)
       case Burying(body, ch, _) => Carries(c, s, p.n, body) && ServedBelow(s.history, p.n, ch)
  }

  ghost predicate Carries(c: Setup, s: State, n: nat, body: Bytes) {
    n < |s.stream| && body == s.stream[n].item.payload && c.decodes(body)
  }

  ghost predicate WorkersInv(c: Setup, s: State) {
    forall w :: 0 <= w < |s.workers| ==>
      TaskInv(c, s, s.workers[w]) && s.workers[w].dlq == Window(s.workers[w].epoch, c.capacity)
  }

  /** Whatever a worker did, it did for a stored message, on a registered channel, with its bytes. */
  ghost predicate EntryOk(c: Setup, s: State, e: Entry) {
    && e.n < |s.stream|
    && (!e.effect.Acked? ==> e.effect.ch < |c.names| && c.decodes(s.stream[e.n].item.payload))
    && (e.effect.Buried? ==> e.effect.letter.value == s.stream[e.n].item.payload)
  }

  ghost predicate HistoryInv(c: Setup, s: State) {
    forall i :: 0 <= i < |s.history| ==> EntryOk(c, s, s.history[i])
  }

  ghost predicate Inv(c: Setup, s: State) {
    Drainer.Inv(s.gate) && StreamInv(c, s) && WorkersInv(c, s) && HistoryInv(c, s)
  }

  // ---------------------------------------------------------------- growth keeps what was reached

  /** The stream and the history only grow, and messages keep their items. */
  ghost predicate Grows(s: State, r: State) {
    && s.history <= r.history
    && |s.stream| <= |r.stream|
    && (forall n :: 0 <= n < |s.stream| ==> r.stream[n].item == s.stream[n].item)
  }

  lemma ServedGrows(h: seq<Entry>, k: seq<Entry>, n: nat, below: nat)
    requires h <= k && ServedBelow(h, n, below)
    ensures ServedBelow(k, n, below)
  {
    forall ch: nat | ch < below
      ensures Served(k, n, ch)
    {
      assert Served(h, n, ch);
      var i :| 0 <= i < |h| && h[i].n == n && Serves(h[i].effect, ch);
      assert k[i] == h[i];
    }
  }

  lemma SettledGrows(c: Setup, s: State, r: State, n: nat)
    requires Grows(s, r) && n < |s.stream| && Settled(c, s, n)
    ensures Settled(c, r, n)
  {
    if c.decodes(s.stream[n].item.payload) {
      ServedGrows(s.history, r.history, n, |c.names|);
    }
  }

  lemma TaskGrows(c: Setup, s: State, r: State, p: Process)
    requires Grows(s, r) && TaskInv(c, s, p)
    ensures TaskInv(c, r, p)
  {
    match p.task
    case Idle =>
    case Acking => SettledGrows(c, s, r, p.n);
    case Sending(_, ch, _) => ServedGrows(s.history, r.history, p.n, ch);
    case Waiting(_, ch, _) => ServedGrows(s.history, r.history, p.n, ch);
    case Burying(_, ch, _) => ServedGrows(s.history, r.history, p.n, ch);
  }

  lemma ServeNext(h: seq<Entry>, e: Entry, ch: nat)
    requires ServedBelow(h, e.n, ch) && Serves(e.effect, ch)
    ensures ServedBelow(h + [e], e.n, ch + 1)
  {
    var n, k := e.n, h + [e];
    ServedGrows(h, k, n, ch);
    assert k[|h|] == e;
    assert Served(k, n, ch);
  }

  lemma ReportedSnoc(stream: seq<Record>, r: Record)
    ensures Reported(stream + [r]) == Reported(stream) + if r.reported then [r.item] else []
  {
    assert (stream + [r])[..|stream|] == stream;
  }

  /** Acknowledging changes no item and no report. */
  lemma {:induction false} ReportedAck(stream: seq<Record>, n: nat)
    requires n < |stream|
    ensures Reported(stream[n := stream[n].(acked := true)]) == Reported(stream)
  {
    var k := |stream| - 1;
    var acked := stream[n := stream[n].(acked := true)];
    if n < k {
      ReportedAck(stream[..k], n);
      assert acked[..k] == stream[..k][n := stream[n].(acked := true)];
    } else {
      assert acked[..k] == stream[..k];
    }
  }
}
