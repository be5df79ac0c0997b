/** A delivery as it is answered step by step, and the oracle that would have given the same answers. */
module Replays {
  import opened PriorityOrder
  import opened Retry
  import opened Worker
  import Sequences

  /** Where a task gets to on these inputs, and its effects on the way. */
  function Replay(names: seq<string>, t: Task, inputs: seq<Input>): (Task, seq<Effect>)
    decreases |inputs|
  {
    if inputs == [] then (t, [])
    else
      var (u, es) := Next(names, t, inputs[0]);
      var (v, fs) := Replay(names, u, inputs[1..]);
      (v, es + fs)
  }

  lemma {:induction false} ReplaySnoc(names: seq<string>, t: Task, inputs: seq<Input>, i: Input)
    ensures var (u, es) := Replay(names, t, inputs);
      var (v, fs) := Next(names, u, i);
      Replay(names, t, inputs + [i]) == (v, es + fs)
    decreases |inputs|
  {
    var all := inputs + [i];
    if inputs == [] {
      var (v, fs) := Next(names, t, i);
      assert all[0] == i && all[1..] == [] && Replay(names, v, []) == (v, []);
      assert fs + [] == fs && [] + fs == fs;
    } else {
      var (u, es) := Next(names, t, inputs[0]);
      ReplaySnoc(names, u, inputs[1..], i);
      assert all[1..] == inputs[1..] + [i];
      var (v, fs) := Replay(names, u, inputs[1..]);
      Sequences.Associate(es, fs, Next(names, v, i).1);
    }
  }

  ghost predicate AgreeFrom(o: Oracle, q: Oracle, c: nat) {
    && (forall b: nat, k: nat :: b >= c ==> o.send(b, k) == q.send(b, k) && o.cancel(b, k) == q.cancel(b, k))
    && (forall b: nat :: b >= c ==> o.now(b) == q.now(b))
  }

  /** The oracles give the same answers to everything that the task can still ask. */
  ghost predicate Agree(o: Oracle, q: Oracle, t: Task) {
    match t
    case Sending(_, c, a) =>
      && AgreeFrom(o, q, c + 1) && o.now(c) == q.now(c)
      && forall k: nat :: k >= a ==> o.send(c, k) == q.send(c, k) && o.cancel(c, k) == q.cancel(c, k)
    case Waiting(_, c, a) =>
      && AgreeFrom(o, q, c + 1) && o.now(c) == q.now(c) && o.cancel(c, a) == q.cancel(c, a)
      && forall k: nat :: k > a ==> o.send(c, k) == q.send(c, k) && o.cancel(c, k) == q.cancel(c, k)
    case Burying(_, c, _) => AgreeFrom(o, q, c + 1) && o.now(c) == q.now(c)
    case _ => true
  }

  lemma AgreeNext(names: seq<string>, o: Oracle, q: Oracle, t: Task, i: Input)
    requires Agree(o, q, t)
    ensures Agree(o, q, Next(names, t, i).0)
  {
  }

  lemma {:induction false} AgreeReplay(names: seq<string>, o: Oracle, q: Oracle, t: Task, inputs: seq<Input>)
    requires Agree(o, q, t)
    ensures Agree(o, q, Replay(names, t, inputs).0)
    decreases |inputs|
  {
    if inputs != [] {
      AgreeNext(names, o, q, t, inputs[0]);
      AgreeReplay(names, o, q, Next(names, t, inputs[0]).0, inputs[1..]);
    }
  }

  lemma {:induction false} EffectsAgree(names: seq<string>, o: Oracle, q: Oracle, t: Task)
    requires TaskOk(names, t) && Agree(o, q, t)
    ensures Effects(names, o, t) == Effects(names, q, t)
    decreases Remaining(names, t)
  {
    if !t.Idle? {
      var i := InputAt(o, t);
      assert i == InputAt(q, t);
      AgreeNext(names, o, q, t, i);
      EffectsAgree(names, o, q, Next(names, t, i).0);
    }
  }

  /** Like `o`, except that the task's next question is answered with `i`. */
  function Answer(o: Oracle, t: Task, i: Input): Oracle {
    match t
    case Sending(_, c, a) => o.(send := (b: nat, k: nat) => if b == c && k == a then i.send else o.send(b, k))
    case Waiting(_, c, a) => o.(cancel := (b: nat, k: nat) => if b == c && k == a then i.cancel else o.cancel(b, k))
    case Burying(_, c, _) => o.(now := (b: nat) => if b == c then i.now else o.now(b))
    case _ => o
  }

  lemma AnswerAnswers(names: seq<string>, o: Oracle, t: Task, i: Input)
    ensures var q := Answer(o, t, i);
      Next(names, t, InputAt(q, t)) == Next(names, t, i) && Agree(q, o, Next(names, t, i).0)
  {
  }

  /** Whatever the answers were, some oracle gives them, and what it says later is the rest of a delivery. */
  lemma {:induction false} ReplayHasOracle(names: seq<string>, t: Task, inputs: seq<Input>) returns (o: Oracle)
    requires TaskOk(names, t)
    ensures var (v, es) := Replay(names, t, inputs);
      TaskOk(names, v) && Effects(names, o, t) == es + Effects(names, o, v)
    decreases |inputs|
  {
    if inputs == [] {
      o := Oracle((b, k) => None, (b, k) => None, b => 0);
    } else {
      var (u, es) := Next(names, t, inputs[0]);
      var q := ReplayHasOracle(names, u, inputs[1..]);
      o := Answer(q, t, inputs[0]);
      AnswerAnswers(names, q, t, inputs[0]);
      AgreeReplay(names, o, q, u, inputs[1..]);
      var (v, fs) := Replay(names, u, inputs[1..]);
      EffectsAgree(names, o, q, u);
      EffectsAgree(names, o, q, v);
      Sequences.Associate(es, fs, Effects(names, o, v));
    }
  }

  // ---------------------------------------------------------------- how often a channel is served

  /** A successful send or a letter. */
  predicate Serves(e: Effect, ch: nat) {
    !e.Acked? && e.ch == ch && (e.Sent? ==> e.ok)
  }

  function Tally(es: seq<Effect>, ch: nat): nat {
    if es == [] then 0 else (if Serves(es[0], ch) then 1 else 0) + Tally(es[1..], ch)
  }

  lemma {:induction false} TallyConcat(es: seq<Effect>, fs: seq<Effect>, ch: nat)
    ensures Tally(es + fs, ch) == Tally(es, ch) + Tally(fs, ch)
  {
    if es == [] {
      assert es + fs == fs;
    } else {
      assert (es + fs)[1..] == es[1..] + fs;
      TallyConcat(es[1..], fs, ch);
    }
  }

  lemma {:induction false} TallyNone(es: seq<Effect>, ch: nat)
    requires forall e :: e in es ==> !Serves(e, ch)
    ensures Tally(es, ch) == 0
  {
    if es != [] {
      TallyNone(es[1..], ch);
    }
  }

  lemma TallyChannel(names: seq<string>, body: Bytes, o: Oracle, c: nat, ch: nat)
    requires c < |names|
    ensures Tally(ChannelEffects(names, body, o, c), ch) == if c == ch then 1 else 0
  {
    var (n, r) := Outcome(o, c, 0);
    var sends := Sends(c, 0, n, r.Success?);
    var early, last := sends[..n - 1], [sends[n - 1]];
    assert sends == early + last;
    TallyConcat(sends, Burial(names, body, o, c, r), ch);
    TallyConcat(early, last, ch);
    TallyNone(early, ch);
    assert last[1..] == [];
    if !r.Success? {
      assert Burial(names, body, o, c, r)[1..] == [];
    }
  }

  lemma {:induction false} TallyFrom(names: seq<string>, body: Bytes, o: Oracle, c: nat, ch: nat)
    requires c <= |names|
    ensures Tally(FromChannel(names, body, o, c), ch) == if c <= ch < |names| then 1 else 0
    decreases |names| - c
  {
    if c < |names| {
      TallyChannel(names, body, o, c, ch);
      TallyFrom(names, body, o, c + 1, ch);
      TallyConcat(ChannelEffects(names, body, o, c), FromChannel(names, body, o, c + 1), ch);
    } else {
      TallyNone([Acked], ch);
    }
  }

  /** A delivery serves every registered channel exactly once, and a message that does not decode none. */
  lemma ServedOnce(names: seq<string>, body: Bytes, decodes: bool, o: Oracle, ch: nat)
    ensures Tally(Handle(names, body, decodes, o), ch) == if decodes && ch < |names| then 1 else 0
  {
    if decodes {
      TaskRuns(names, body, o, 0);
      TallyFrom(names, body, o, 0, ch);
    } else {
      UndecodableAcked(names, body, o);
      TallyNone([Acked], ch);
    }
  }

  lemma {:induction false} ProjectPrefix(es: seq<Effect>, fs: seq<Effect>, c: nat)
    requires es <= fs
    ensures Project(es, c) <= Project(fs, c)
  {
    assert fs == es + fs[|es|..];
    ProjectConcat(es, fs[|es|..], c);
  }
}
