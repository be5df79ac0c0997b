/** What can still be done for a message: the model's failures never take the way out away. */
module PipelineProgress {
  import opened PriorityOrder
  import opened Pipeline
  import opened PipelineSafety
  import Worker

  /** Worker `w` crashes, takes message `n` up and is then left alone. */
  function Redeliver(c: Setup, w: nat, n: nat, body: Bytes, o: Worker.Oracle): seq<Action> {
    [Crash(w)] + ([Deliver(w, n)] + Uninterrupted(c, w, o, Worker.Start(c.names, body, c.decodes(body))))
  }

  /** One worker left alone finishes its task, acknowledges its message and touches no other. */
  lemma {:induction false} LeftAlone(c: Setup, s: State, w: nat, o: Worker.Oracle, t: Worker.Task)
    requires w < |s.workers| && s.workers[w].task == t && Worker.TaskOk(c.names, t)
    requires !t.Idle? && s.workers[w].n < |s.stream|
    ensures var r, n := Run(c, s, Uninterrupted(c, w, o, t)), s.workers[w].n;
      && r.stream == s.stream[n := s.stream[n].(acked := true)] && r.gate == s.gate
      && w < |r.workers| && r.workers[w].task.Idle?
    decreases Worker.Remaining(c.names, t)
  {
    var i := Worker.InputAt(o, t);
    var r, u := StepWork(c, s, w, i), Worker.Next(c.names, t, i).0;
    WorkStep(c, s, w, i);
    RunFirst(c, s, Work(w, i), Uninterrupted(c, w, o, u));
    if u.Idle? {
      assert t.Acking?;
    } else {
      assert r.stream == s.stream && r.gate == s.gate;
      LeftAlone(c, r, w, o, u);
    }
  }

  lemma CrashAndTakeUp(c: Setup, s: State, w: nat, n: nat)
    requires w < |s.workers| && n < |s.stream| && !s.stream[n].acked
    ensures var body := s.stream[n].item.payload;
      var q := Step(c, s, Crash(w));
      var r := Step(c, q, Deliver(w, n));
      && q.workers[w] == FRESH.(born := |s.history|) && q.stream == s.stream && q.history == s.history
      && q.gate == s.gate && q.deliveries == s.deliveries
      && r.stream == s.stream && r.gate == s.gate && r.history == s.history && |r.workers| == |s.workers|
      && r.workers[w].task == Worker.Start(c.names, body, c.decodes(body)) && r.workers[w].n == n
  {
  }

  /**
   * Whatever has happened, and whatever worker `w` is at: it may crash, and any message that is not
   * acknowledged can then be handed to it and, if it is left alone, be handled from start to end and
   * acknowledged, while nothing else in the broker or the gateway changes.
   */
  lemma StillDeliverable(c: Setup, s: State, w: nat, n: nat, o: Worker.Oracle)
    requires w < |s.workers| && n < |s.stream| && !s.stream[n].acked
    ensures var body := s.stream[n].item.payload;
      var r := Run(c, s, Redeliver(c, w, n, body, o));
      && r.stream == s.stream[n := s.stream[n].(acked := true)] && r.gate == s.gate
      && r.history == s.history + Tag(n, |s.deliveries|, w, Worker.Handle(c.names, body, c.decodes(body), o))
  {
    var body := s.stream[n].item.payload;
    var t := Worker.Start(c.names, body, c.decodes(body));
    var alone := Uninterrupted(c, w, o, t);
    var q := Step(c, s, Crash(w));
    var r := Step(c, q, Deliver(w, n));
    CrashAndTakeUp(c, s, w, n);
    RunFirst(c, s, Crash(w), [Deliver(w, n)] + alone);
    RunFirst(c, q, Deliver(w, n), alone);
    LeftAlone(c, r, w, o, t);
    DeliveryIsHandle(c, q, w, n, o);
  }

  /** An acknowledgement that is lost leaves the message to be delivered again, to the same worker even. */
  lemma LostAckRedelivers(c: Setup, s: State, w: nat)
    requires w < |s.workers| && s.workers[w].task.Acking? && s.workers[w].n < |s.stream| && !s.stream[s.workers[w].n].acked
    ensures var n := s.workers[w].n;
      var q := Step(c, s, AckLost(w));
      var r := Step(c, q, Deliver(w, n));
      && q.stream == s.stream && q.history == s.history && q.workers[w].dlq == s.workers[w].dlq
      && !r.stream[n].acked && |r.workers| == |s.workers| && !r.workers[w].task.Idle? && r.workers[w].n == n
      && r.deliveries == s.deliveries + [n]
  {
  }
}
