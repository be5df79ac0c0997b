/** The history as a ledger: acknowledgements and letters are exactly what it says. */
module PipelineLedger {
  import opened DeadLetters
  import opened Pipeline
  import PipelineSafety
  import Worker

  /** The broker counts a message as acknowledged exactly if some worker's ack for it got through. */
  ghost predicate AcksRecorded(s: State) {
    forall n :: 0 <= n < |s.stream| ==> (s.stream[n].acked <==> AckRecorded(s.history, n))
  }

  ghost predicate AckRecorded(h: seq<Entry>, n: nat) {
    exists i :: 0 <= i < |h| && h[i].n == n && h[i].effect.Acked?
  }

  /** The letters that worker `w` has recorded from entry `from` on, in order. */
  function Letters(h: seq<Entry>, from: nat, w: nat): seq<Message> {
    if |h| <= from then []
    else
      var last := h[|h| - 1];
      Letters(h[..|h| - 1], from, w) + if last.w == w && last.effect.Buried? then [last.effect.letter] else []
  }

  /** What a process has pushed to its DLQ is exactly what it has recorded since it started. */
  ghost predicate LettersRecorded(h: seq<Entry>, p: Process, w: nat) {
    p.born <= |h| && p.epoch == Letters(h, p.born, w)
  }

  ghost predicate Ledger(s: State) {
    AcksRecorded(s) && forall w :: 0 <= w < |s.workers| ==> LettersRecorded(s.history, s.workers[w], w)
  }

  lemma LettersSnoc(h: seq<Entry>, e: Entry, from: nat, w: nat)
    requires from <= |h|
    ensures Letters(h + [e], from, w) ==
      Letters(h, from, w) + if e.w == w && e.effect.Buried? then [e.effect.letter] else []
  {
    assert (h + [e])[..|h|] == h;
  }

  lemma PublishKeepsAcks(c: Setup, s: State, a: Action)
    requires AcksRecorded(s) && HistoryInv(c, s) && a.Gateway?
    ensures AcksRecorded(Step(c, s, a))
  {
    var r := Step(c, s, a);
    forall n | |s.stream| <= n < |r.stream|
      ensures !r.stream[n].acked && !AckRecorded(r.history, n)
    {
      assert forall i :: 0 <= i < |s.history| ==> EntryOk(c, s, s.history[i]);
    }
  }

  lemma AckAppended(h: seq<Entry>, e: Entry, n: nat)
    ensures AckRecorded(h + [e], n) <==> AckRecorded(h, n) || (e.n == n && e.effect.Acked?)
  {
    var k := h + [e];
    assert k[|h|] == e;
    if AckRecorded(h, n) {
      var i :| 0 <= i < |h| && h[i].n == n && h[i].effect.Acked?;
      assert k[i] == h[i];
    }
    if AckRecorded(k, n) {
      var i :| 0 <= i < |k| && k[i].n == n && k[i].effect.Acked?;
      assert i < |h| ==> k[i] == h[i];
    }
  }

  lemma WorkKeepsAcks(c: Setup, s: State, w: nat, i: Worker.Input)
    requires AcksRecorded(s) && w < |s.workers| && (s.workers[w].task.Acking? ==> s.workers[w].n < |s.stream|)
    ensures AcksRecorded(StepWork(c, s, w, i))
  {
    var p, r := s.workers[w], StepWork(c, s, w, i);
    var es := Worker.Next(c.names, p.task, i).1;
    assert r.history == s.history + (if es == [] then [] else [Entry(p.n, p.d, w, es[0])]);
    forall n | 0 <= n < |r.stream|
      ensures r.stream[n].acked <==> AckRecorded(r.history, n)
    {
      if es != [] {
        AckAppended(s.history, Entry(p.n, p.d, w, es[0]), n);
      } else {
        assert r.history == s.history;
      }
    }
  }

  lemma WorkKeepsLetters(c: Setup, s: State, w: nat, i: Worker.Input, v: nat)
    requires w < |s.workers| && v < |s.workers| && LettersRecorded(s.history, s.workers[v], v)
    ensures var r := StepWork(c, s, w, i); |r.workers| == |s.workers| && LettersRecorded(r.history, r.workers[v], v)
  {
    var p, r := s.workers[w], StepWork(c, s, w, i);
    var es := Worker.Next(c.names, p.task, i).1;
    if es != [] {
      assert r.history == s.history + [Entry(p.n, p.d, w, es[0])];
      LettersSnoc(s.history, Entry(p.n, p.d, w, es[0]), s.workers[v].born, v);
    }
  }

  lemma StepKeepsLedger(c: Setup, s: State, a: Action)
    requires Ledger(s) && Inv(c, s)
    ensures Ledger(Step(c, s, a))
  {
    match a
    case Gateway(e) => PublishKeepsAcks(c, s, a);
    case Work(w, i) =>
      if w < |s.workers| {
        assert TaskInv(c, s, s.workers[w]);
        WorkKeepsAcks(c, s, w, i);
        forall v | 0 <= v < |s.workers|
          ensures LettersRecorded(StepWork(c, s, w, i).history, StepWork(c, s, w, i).workers[v], v)
        {
          WorkKeepsLetters(c, s, w, i, v);
        }
      }
    case _ =>
  }

  lemma {:induction false} RunKeepsLedger(c: Setup, s: State, acts: seq<Action>)
    requires Ledger(s) && Inv(c, s) && c.capacity >= 1
    ensures Ledger(Run(c, s, acts))
    decreases |acts|
  {
    if acts != [] {
      StepKeepsLedger(c, s, acts[0]);
      PipelineSafety.StepKeepsInv(c, s, acts[0]);
      RunKeepsLedger(c, Step(c, s, acts[0]), acts[1..]);
    }
  }

  /**
   * In every reachable state a message counts as acknowledged if and only if an ack for it is in the
   * history, and every process holds the last `capacity` of exactly the letters that it has recorded
   * since it started.
   */
  lemma LedgerHolds(c: Setup, workers: nat, acts: seq<Action>)
    requires c.capacity >= 1
    ensures var s := Run(c, Init([], workers), acts);
      && Ledger(s)
      && forall w :: 0 <= w < |s.workers| ==> s.workers[w].dlq == Window(s.workers[w].epoch, c.capacity)
  {
    RunKeepsLedger(c, Init([], workers), acts);
    PipelineSafety.Reachable(c, workers, acts);
  }

  /** Entry `i`, a letter, stands among those of its worker behind the ones recorded before it. */
  lemma {:induction false} LetterPosition(h: seq<Entry>, from: nat, i: nat) returns (k: nat)
    requires from <= i < |h| && h[i].effect.Buried?
    ensures var ls := Letters(h, from, h[i].w);
      k < |ls| && ls[k] == h[i].effect.letter && k == |Letters(h[..i], from, h[i].w)|
    decreases |h|
  {
    var front := h[..|h| - 1];
    if i < |h| - 1 {
      k := LetterPosition(front, from, i);
      assert front[..i] == h[..i];
    } else {
      k := |Letters(front, from, h[i].w)|;
    }
  }

  /**
   * A recorded letter is lost with its process, or is in the DLQ of that process, or has been pushed
   * out by `capacity` later letters of the same process.
   */
  lemma FateOfLetter(c: Setup, workers: nat, acts: seq<Action>, i: nat)
    requires c.capacity >= 1
    requires var h := Run(c, Init([], workers), acts).history; i < |h| && h[i].effect.Buried?
    ensures var s := Run(c, Init([], workers), acts);
      var e := s.history[i];
      && e.w < |s.workers|
      && var p := s.workers[e.w];
         || i < p.born
         || e.effect.letter in p.dlq
         || |Letters(s.history, p.born, e.w)| - |Letters(s.history[..i], p.born, e.w)| > c.capacity
  {
    LedgerHolds(c, workers, acts);
    RunKeepsWorkers(c, Init([], workers), acts);
    var s := Run(c, Init([], workers), acts);
    var e := s.history[i];
    var p := s.workers[e.w];
    if p.born <= i {
      var k := LetterPosition(s.history, p.born, i);
      assert LettersRecorded(s.history, p, e.w);
      if |p.epoch| - k <= c.capacity {
        InWindow(p.epoch, c.capacity, k);
      }
    }
  }

  lemma InWindow<T>(s: seq<T>, capacity: nat, k: nat)
    requires k < |s| && |s| - k <= capacity
    ensures s[k] in Window(s, capacity)
  {
    var w := Window(s, capacity);
    assert |s| > capacity ==> w[k - (|s| - capacity)] == s[k];
  }

  ghost predicate WorkersKnown(s: State) {
    forall i :: 0 <= i < |s.history| ==> s.history[i].w < |s.workers|
  }

  lemma {:induction false} RunKeepsWorkers(c: Setup, s: State, acts: seq<Action>)
    requires WorkersKnown(s)
    ensures WorkersKnown(Run(c, s, acts))
    decreases |acts|
  {
    if acts != [] {
      StepKeepsWorkers(c, s, acts[0]);
      RunKeepsWorkers(c, Step(c, s, acts[0]), acts[1..]);
    }
  }

  lemma StepKeepsWorkers(c: Setup, s: State, a: Action)
    requires WorkersKnown(s)
    ensures WorkersKnown(Step(c, s, a))
  {
    if a.Work? && a.w < |s.workers| {
      var p := s.workers[a.w];
      var es := Worker.Next(c.names, p.task, a.input).1;
      assert Step(c, s, a).history == s.history + (if es == [] then [] else [Entry(p.n, p.d, a.w, es[0])]);
    }
  }

  lemma StepKeepsAcked(c: Setup, s: State, a: Action, n: nat)
    requires n < |s.stream| && s.stream[n].acked
    ensures var r := Step(c, s, a); n < |r.stream| && r.stream[n] == s.stream[n]
    ensures forall w :: 0 <= w < |s.workers| && a == Deliver(w, n) ==> Step(c, s, a) == s
  {
  }

  /**
   * The broker as assumed: an acknowledged message stays acknowledged and is not handed to a worker
   * again. A check of the model rather than of the code.
   */
  lemma {:induction false} AckedIsFinal(c: Setup, s: State, acts: seq<Action>, n: nat, w: nat)
    requires n < |s.stream| && s.stream[n].acked
    ensures var r := Run(c, s, acts);
      && n < |r.stream| && r.stream[n] == s.stream[n]
      && Step(c, r, Deliver(w, n)) == r
    decreases |acts|
  {
    if acts != [] {
      StepKeepsAcked(c, s, acts[0], n);
      AckedIsFinal(c, Step(c, s, acts[0]), acts[1..], n, w);
    }
  }
}
