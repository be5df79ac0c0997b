/** Delivery of one message: every channel in turn, each with retries, failures buried, ack last. */
module Worker {
  import opened Sequences
  import opened PriorityOrder
  import opened Retry
  import opened DeadLetters
  import Backoff

  datatype Effect =
    | Sent(ch: nat, attempt: nat, ok: bool)
    | Buried(ch: nat, letter: Message)
    | Acked

  /** The environment of one delivery, by channel and attempt; `now` is the clock at a burial. */
  datatype Oracle = Oracle(
    send: (nat, nat) -> Option<Error>,
    cancel: (nat, nat) -> Option<Error>,
    now: nat -> int
  )

  const OPTIONS := [MaxAttempts(3), BaseDelay(500 * MILLISECOND)]
  const ATTEMPTS := 3

  lemma OptionsFold()
    ensures Fold(OPTIONS) == Config(3, 500_000_000, 10_000_000_000, 2.0)
  {
    var first := [MaxAttempts(3)];
    assert first[..0] == [] && OPTIONS[..1] == first;
    assert Fold(first) == Apply(DEFAULTS, MaxAttempts(3));
  }

  function Letter(name: string, body: Bytes, r: Result): Message {
    BLANK.(originalTopic := RDispatchDeliver, value := body, error := ChannelFailed(name, r), attempts := 3)
  }

  // ---------------------------------------------------------------- the steps of a delivery

  datatype Task =
    | Idle
    | Sending(body: Bytes, ch: nat, attempt: nat)
    | Waiting(body: Bytes, ch: nat, attempt: nat)
    | Burying(body: Bytes, ch: nat, why: Result)
    | Acking

  datatype Input = Input(send: Option<Error>, cancel: Option<Error>, now: int)

  function ToChannel(names: seq<string>, body: Bytes, c: nat): Task {
    if c < |names| then Sending(body, c, 0) else Acking
  }

  /** A message that is not a notification is acknowledged and forgotten. */
  function Start(names: seq<string>, body: Bytes, decodes: bool): Task {
    if decodes then ToChannel(names, body, 0) else Acking
  }

  function Next(names: seq<string>, t: Task, i: Input): (Task, seq<Effect>) {
    match t
    case Idle => (Idle, [])
    case Sending(body, c, a) =>
      if i.send.None? then (ToChannel(names, body, c + 1), [Sent(c, a, true)])
      else if a >= ATTEMPTS - 1 then (Burying(body, c, Exhausted(i.send.value)), [Sent(c, a, false)])
      else (Waiting(body, c, a), [Sent(c, a, false)])
    case Waiting(body, c, a) =>
      if i.cancel.Some? then (Burying(body, c, Cancelled(i.cancel.value)), [])
      else (Sending(body, c, a + 1), [])
    case Burying(body, c, why) =>
      if c < |names| then (ToChannel(names, body, c + 1), [Buried(c, Stamp(Letter(names[c], body, why), i.now))])
      else (Acking, [])
    case Acking => (Idle, [Acked])
  }

  predicate TaskOk(names: seq<string>, t: Task) {
    match t
    case Sending(_, c, a) => c < |names| && a < ATTEMPTS
    case Waiting(_, c, a) => c < |names| && a < ATTEMPTS - 1
    case Burying(_, c, _) => c < |names|
    case _ => true
  }

  function InputAt(o: Oracle, t: Task): Input {
    match t
    case Sending(_, c, a) => Input(o.send(c, a), None, 0)
    case Waiting(_, c, a) => Input(None, o.cancel(c, a), 0)
    case Burying(_, c, _) => Input(None, None, o.now(c))
    case _ => Input(None, None, 0)
  }

  function Remaining(names: seq<string>, t: Task): nat
    requires TaskOk(names, t)
  {
    match t
    case Idle => 0
    case Acking => 1
    case Sending(_, c, a) => 8 * (|names| - c) - 2 * a
    case Waiting(_, c, a) => 8 * (|names| - c) - 2 * a - 1
    case Burying(_, c, _) => 8 * (|names| - c) - 5
  }

  /** All effects of a task that is not interrupted. */
  function Effects(names: seq<string>, o: Oracle, t: Task): seq<Effect>
    requires TaskOk(names, t)
    decreases Remaining(names, t)
  {
    if t.Idle? then []
    else
      var (r, es) := Next(names, t, InputAt(o, t));
      es + Effects(names, o, r)
  }

  // ---------------------------------------------------------------- what a delivery amounts to

  function SendAt(o: Oracle, c: nat): nat -> Option<Error> {
    (k: nat) => o.send(c, k)
  }

  function CancelAt(o: Oracle, c: nat): nat -> Option<Error> {
    (k: nat) => o.cancel(c, k)
  }

  /** How the retry loop of channel `c` ends when it has come to attempt `a`. */
  function Outcome(o: Oracle, c: nat, a: nat): (r: (nat, Result))
    requires a < ATTEMPTS
    ensures a < r.0
    decreases ATTEMPTS - a
  {
    match o.send(c, a)
    case None => (a + 1, Success)
    case Some(e) =>
      if a == ATTEMPTS - 1 then (a + 1, Exhausted(e))
      else match o.cancel(c, a)
        case Some(d) => (a + 1, Cancelled(d))
        case None => Outcome(o, c, a + 1)
  }

  lemma {:induction false} OutcomeEnded(o: Oracle, c: nat, a: nat)
    requires a < ATTEMPTS && Undisturbed(SendAt(o, c), CancelAt(o, c), a)
    ensures var (n, r) := Outcome(o, c, a); a < n && Ended(SendAt(o, c), CancelAt(o, c), ATTEMPTS, n, r)
    decreases ATTEMPTS - a
  {
    if o.send(c, a).Some? && a < ATTEMPTS - 1 && o.cancel(c, a).None? {
      OutcomeEnded(o, c, a + 1);
    }
  }

  /** The sends from attempt `a` up to attempt `n`, of which only the last can have succeeded. */
  function Sends(c: nat, a: nat, n: nat, ok: bool): (es: seq<Effect>)
    requires a < n
    ensures |es| == n - a
    ensures forall k :: 0 <= k < n - a ==> es[k] == Sent(c, a + k, ok && a + k == n - 1)
  {
    seq(n - a, k requires 0 <= k < n - a => Sent(c, a + k, ok && a + k == n - 1))
  }

  /** The burial that follows the sends of a failed channel. */
  function Burial(names: seq<string>, body: Bytes, o: Oracle, c: nat, r: Result): seq<Effect>
    requires c < |names|
  {
    if r.Success? then [] else [Buried(c, Stamp(Letter(names[c], body, r), o.now(c)))]
  }

  function ChannelEffects(names: seq<string>, body: Bytes, o: Oracle, c: nat): seq<Effect>
    requires c < |names|
  {
    var (n, r) := Outcome(o, c, 0);
    Sends(c, 0, n, r.Success?) + Burial(names, body, o, c, r)
  }

  function FromChannel(names: seq<string>, body: Bytes, o: Oracle, c: nat): seq<Effect>
    requires c <= |names|
    decreases |names| - c
  {
    if c == |names| then [Acked] else ChannelEffects(names, body, o, c) + FromChannel(names, body, o, c + 1)
  }

  lemma Unfold(names: seq<string>, o: Oracle, t: Task, r: Task, es: seq<Effect>)
    requires TaskOk(names, t) && !t.Idle? && Next(names, t, InputAt(o, t)) == (r, es)
    ensures TaskOk(names, r) && Effects(names, o, t) == es + Effects(names, o, r)
  {
  }

  lemma BuryingRuns(names: seq<string>, body: Bytes, o: Oracle, c: nat, r: Result)
    requires c < |names| && !r.Success?
    ensures Effects(names, o, Burying(body, c, r)) ==
      Burial(names, body, o, c, r) + Effects(names, o, ToChannel(names, body, c + 1))
  {
    Unfold(names, o, Burying(body, c, r), ToChannel(names, body, c + 1), Burial(names, body, o, c, r));
  }

  lemma LastSendRuns(names: seq<string>, body: Bytes, o: Oracle, c: nat, a: nat)
    requires c < |names| && a < ATTEMPTS
    requires o.send(c, a).None? || a == ATTEMPTS - 1 || o.cancel(c, a).Some?
    ensures var (n, r) := Outcome(o, c, a);
      n == a + 1 && Effects(names, o, Sending(body, c, a)) ==
        [Sent(c, a, r.Success?)] + (Burial(names, body, o, c, r) + Effects(names, o, ToChannel(names, body, c + 1)))
  {
    var r := Outcome(o, c, a).1;
    var here, next := Sending(body, c, a), ToChannel(names, body, c + 1);
    if r.Success? {
      Unfold(names, o, here, next, [Sent(c, a, true)]);
      assert Burial(names, body, o, c, r) + Effects(names, o, next) == Effects(names, o, next);
    } else {
      BuryingRuns(names, body, o, c, r);
      if a == ATTEMPTS - 1 {
        Unfold(names, o, here, Burying(body, c, r), [Sent(c, a, false)]);
      } else {
        Unfold(names, o, here, Waiting(body, c, a), [Sent(c, a, false)]);
        Unfold(names, o, Waiting(body, c, a), Burying(body, c, r), []);
        assert [] + Effects(names, o, Burying(body, c, r)) == Effects(names, o, Burying(body, c, r));
      }
    }
  }

  lemma AnotherSendRuns(names: seq<string>, body: Bytes, o: Oracle, c: nat, a: nat)
    requires c < |names| && a < ATTEMPTS - 1 && o.send(c, a).Some? && o.cancel(c, a).None?
    ensures Effects(names, o, Sending(body, c, a)) == [Sent(c, a, false)] + Effects(names, o, Sending(body, c, a + 1))
  {
    var again := Sending(body, c, a + 1);
    Unfold(names, o, Sending(body, c, a), Waiting(body, c, a), [Sent(c, a, false)]);
    Unfold(names, o, Waiting(body, c, a), again, []);
    assert [] + Effects(names, o, again) == Effects(names, o, again);
  }

  lemma {:induction false} SendingRuns(names: seq<string>, body: Bytes, o: Oracle, c: nat, a: nat)
    requires c < |names| && a < ATTEMPTS
    ensures var (n, r) := Outcome(o, c, a);
      a < n && Effects(names, o, Sending(body, c, a)) ==
        Sends(c, a, n, r.Success?)
        + (Burial(names, body, o, c, r) + Effects(names, o, ToChannel(names, body, c + 1)))
    decreases ATTEMPTS - a
  {
    var (n, r) := Outcome(o, c, a);
    if o.send(c, a).None? || a == ATTEMPTS - 1 || o.cancel(c, a).Some? {
      LastSendRuns(names, body, o, c, a);
      assert Sends(c, a, n, r.Success?) == [Sent(c, a, r.Success?)];
    } else {
      AnotherSendRuns(names, body, o, c, a);
      SendingRuns(names, body, o, c, a + 1);
      assert Sends(c, a, n, r.Success?) == [Sent(c, a, false)] + Sends(c, a + 1, n, r.Success?);
    }
  }

  /** The steps of a delivery, run to the end, are the channels one after the other and the ack. */
  lemma {:induction false} TaskRuns(names: seq<string>, body: Bytes, o: Oracle, c: nat)
    requires c <= |names|
    ensures Effects(names, o, ToChannel(names, body, c)) == FromChannel(names, body, o, c)
    decreases |names| - c
  {
    if c < |names| {
      SendingRuns(names, body, o, c, 0);
      TaskRuns(names, body, o, c + 1);
      OutcomeEnded(o, c, 0);
      var (n, r) := Outcome(o, c, 0);
      var sends, burial := Sends(c, 0, n, r.Success?), Burial(names, body, o, c, r);
      var rest := FromChannel(names, body, o, c + 1);
      assert sends + (burial + rest) == sends + burial + rest;
    } else {
      assert Effects(names, o, Idle) == [];
    }
  }

  function Handle(names: seq<string>, body: Bytes, decodes: bool, o: Oracle): seq<Effect> {
    Effects(names, o, Start(names, body, decodes))
  }

  // ---------------------------------------------------------------- the outcome per channel

  predicate OfChannel(e: Effect, c: nat) {
    !e.Acked? && e.ch == c
  }

  function Project(es: seq<Effect>, c: nat): seq<Effect> {
    if es == [] then [] else (if OfChannel(es[0], c) then [es[0]] else []) + Project(es[1..], c)
  }

  lemma {:induction false} ProjectConcat(es: seq<Effect>, fs: seq<Effect>, c: nat)
    ensures Project(es + fs, c) == Project(es, c) + Project(fs, c)
  {
    if es == [] {
      assert es + fs == fs;
    } else {
      assert (es + fs)[1..] == es[1..] + fs;
      ProjectConcat(es[1..], fs, c);
      Associate(if OfChannel(es[0], c) then [es[0]] else [], Project(es[1..], c), Project(fs, c));
    }
  }

  lemma {:induction false} ProjectAll(es: seq<Effect>, c: nat)
    requires forall e :: e in es ==> OfChannel(e, c)
    ensures Project(es, c) == es
  {
    if es != [] {
      ProjectAll(es[1..], c);
    }
  }

  lemma {:induction false} ProjectNone(es: seq<Effect>, c: nat)
    requires forall e :: e in es ==> !OfChannel(e, c)
    ensures Project(es, c) == []
  {
    if es != [] {
      ProjectNone(es[1..], c);
    }
  }

  /** Channels come in order: no effect of one after an effect of a later one, and the ack ends it. */
  ghost predicate InChannelOrder(es: seq<Effect>) {
    && (forall i, j :: 0 <= i < j < |es| && !es[i].Acked? && !es[j].Acked? ==> es[i].ch <= es[j].ch)
    && es != [] && es[|es| - 1] == Acked
    && (forall i :: 0 <= i < |es| - 1 ==> !es[i].Acked?)
  }

  lemma {:induction false} FromChannelOrder(names: seq<string>, body: Bytes, o: Oracle, c: nat)
    requires c <= |names|
    ensures InChannelOrder(FromChannel(names, body, o, c))
    ensures forall e :: e in FromChannel(names, body, o, c) && !e.Acked? ==> c <= e.ch < |names|
    decreases |names| - c
  {
    if c < |names| {
      FromChannelOrder(names, body, o, c + 1);
      var here := ChannelEffects(names, body, o, c);
      assert forall e :: e in here ==> OfChannel(e, c);
      InOrderConcat(here, FromChannel(names, body, o, c + 1), c);
    }
  }

  lemma InOrderConcat(here: seq<Effect>, later: seq<Effect>, c: nat)
    requires InChannelOrder(later)
    requires forall e :: e in here ==> OfChannel(e, c)
    requires forall e :: e in later && !e.Acked? ==> c < e.ch
    ensures InChannelOrder(here + later)
  {
    var es := here + later;
    forall i | 0 <= i < |es|
      ensures i < |here| ==> es[i] in here
      ensures i >= |here| ==> es[i] in later && es[i] == later[i - |here|]
    {
    }
  }

  lemma {:induction false} FromChannelProjects(names: seq<string>, body: Bytes, o: Oracle, c: nat, d: nat)
    requires c <= d < |names|
    ensures Project(FromChannel(names, body, o, c), d) == ChannelEffects(names, body, o, d)
    decreases |names| - c
  {
    var here, later := ChannelEffects(names, body, o, c), FromChannel(names, body, o, c + 1);
    assert forall e :: e in here ==> OfChannel(e, c);
    ProjectConcat(here, later, d);
    if d == c {
      FromChannelOrder(names, body, o, c + 1);
      ProjectAll(here, c);
      ProjectNone(later, c);
    } else {
      ProjectNone(here, d);
      FromChannelProjects(names, body, o, c + 1, d);
    }
  }

  /** No send of `c` succeeds before it is cut short or the attempts run out. */
  ghost predicate Fails(o: Oracle, c: nat) {
    !Outcome(o, c, 0).1.Success?
  }

  /**
   * For every decodable message: channels in order whatever failed before, one ack and nothing after
   * it, and per channel one to three sends of which only the last can succeed, followed by one
   * burial with the message's bytes exactly if none succeeded.
   */
  lemma PerChannel(names: seq<string>, body: Bytes, o: Oracle, c: nat)
    requires c < |names|
    ensures InChannelOrder(Handle(names, body, true, o))
    ensures var (n, r) := Outcome(o, c, 0);
      && 1 <= n <= 3
      && Ended(SendAt(o, c), CancelAt(o, c), 3, n, r)
      && ChannelShape(Project(Handle(names, body, true, o), c), body, c, n, names[c], r, o.now(c))
  {
    TaskRuns(names, body, o, 0);
    FromChannelOrder(names, body, o, 0);
    FromChannelProjects(names, body, o, 0, c);
    OutcomeEnded(o, c, 0);
    var (n, r) := Outcome(o, c, 0);
    var p := ChannelEffects(names, body, o, c);
    assert !r.Success? ==> p[..n] == Sends(c, 0, n, false);
  }

  /** `n` sends, and unless the last one succeeded one letter: this topic, these bytes, this error. */
  ghost predicate ChannelShape(es: seq<Effect>, body: Bytes, c: nat, n: nat, name: string, r: Result, now: int)
    requires n >= 1
  {
    if r.Success? then es == Sends(c, 0, n, true)
    else
      && |es| == n + 1
      && es[..n] == Sends(c, 0, n, false)
      && es[n] == Buried(c, Message(RDispatchDeliver, [], body, ChannelFailed(name, r), 3, now, map[]))
  }

  /** A message that does not decode is acknowledged and nothing else happens. */
  lemma UndecodableAcked(names: seq<string>, body: Bytes, o: Oracle)
    ensures Handle(names, body, false, o) == [Acked]
  {
    assert Effects(names, o, Idle) == [];
  }

  /**
   * The letter always records 3 attempts. That is the number of sends made if and only if no wait of
   * the failed channel was cut short by cancellation.
   */
  lemma RecordedAttempts(o: Oracle, c: nat)
    requires Fails(o, c)
    ensures Outcome(o, c, 0).0 == 3 <==> o.cancel(c, 0).None? && o.cancel(c, 1).None?
  {
    assert Outcome(o, c, 1) == if o.send(c, 1).None? then (2, Success) else
      if o.cancel(c, 1).Some? then (2, Cancelled(o.cancel(c, 1).value)) else Outcome(o, c, 2);
  }

  /** One send that fails, its wait cancelled: the letter records 3 attempts where 1 was made. */
  lemma OneSendRecordedAsThree(names: seq<string>, body: Bytes, e: Error, d: Error, now: int)
    requires |names| == 1
    ensures var o := Oracle((c, a) => Some(e), (c, a) => Some(d), c => now);
      && Outcome(o, 0, 0) == (1, Cancelled(d))
      && Handle(names, body, true, o) ==
           [Sent(0, 0, false), Buried(0, Stamp(Letter(names[0], body, Cancelled(d)), now)), Acked]
      && Letter(names[0], body, Cancelled(d)).attempts == 3
  {
    var o := Oracle((c, a) => Some(e), (c, a) => Some(d), c => now);
    TaskRuns(names, body, o, 0);
    assert FromChannel(names, body, o, 0) == ChannelEffects(names, body, o, 0) + FromChannel(names, body, o, 1);
  }

  // ---------------------------------------------------------------- the loop of the worker

  function Letters(es: seq<Effect>): seq<Message> {
    if es == [] then []
    else (if es[0].Buried? then [es[0].letter] else []) + Letters(es[1..])
  }

  lemma {:induction false} LettersConcat(es: seq<Effect>, fs: seq<Effect>)
    ensures Letters(es + fs) == Letters(es) + Letters(fs)
  {
    if es == [] {
      assert es + fs == fs;
    } else {
      assert (es + fs)[1..] == es[1..] + fs;
      LettersConcat(es[1..], fs);
      Associate(if es[0].Buried? then [es[0].letter] else [], Letters(es[1..]), Letters(fs));
    }
  }

  lemma {:induction false} NoLetters(es: seq<Effect>)
    requires forall e :: e in es ==> !e.Buried?
    ensures Letters(es) == []
  {
    if es != [] {
      NoLetters(es[1..]);
    }
  }

  lemma AckHasNoLetter(es: seq<Effect>)
    ensures Letters(es + [Acked]) == Letters(es)
  {
    LettersConcat(es, [Acked]);
    NoLetters([Acked]);
  }

  lemma OneLetter(es: seq<Effect>)
    requires |es| == 1 && es[0].Buried?
    ensures Letters(es) == [es[0].letter]
  {
    assert es[1..] == [];
  }

  lemma OptionsFit(c: Config)
    requires c == Config(ATTEMPTS, 500 * MILLISECOND, 10 * SECOND, 2.0)
    ensures Positive(c) && Backoff.JitterFits(c)
  {
  }

  lemma PowAtMost4(n: nat)
    requires n <= 2
    ensures Backoff.IPow(2, n) <= 4
  {
  }

  lemma WaitsPerChannel(c: Config, jitter: nat -> Jitter, junk: int, n: nat)
    requires c == Config(ATTEMPTS, 500 * MILLISECOND, 10 * SECOND, 2.0)
    requires n <= ATTEMPTS - 1
    ensures Backoff.Sum(Waits(c, jitter, junk, n)) <= 1_875_000_000
  {
    OptionsFit(c);
    PowAtMost4(n);
    Backoff.TotalWaitDoubling(c, jitter, junk, n);
    var p := Backoff.IPow(2, n);
    assert c.baseDelay * (p - 1) <= 500 * MILLISECOND * 3;
  }

  /** The worker waits half a second after the first failed send and a second after the second. */
  lemma WorkerDelays(c: Config, junk: int)
    requires c == Config(3, 500_000_000, 10_000_000_000, 2.0)
    ensures Planned(c, 0, junk) == 500_000_000 && Planned(c, 1, junk) == 1_000_000_000
  {
    assert Planned(c, 0, junk) == 500_000_000;
    assert 500_000_000 as real * c.multiplier == 1_000_000_000.0;
    assert Planned(c, 1, junk) == Grow(c, 500_000_000, junk);
  }

  /** Half a second times the random factor, rounded down to nanoseconds. */
  predicate HalfSecond(w: int, j: Jitter) {
    w as real <= 500_000_000.0 * j < (w + 1) as real
  }

  predicate OneSecond(w: int, j: Jitter) {
    w as real <= 1_000_000_000.0 * j < (w + 1) as real
  }

  lemma WorkerWaits(c: Config, jitter: nat -> Jitter, junk: int, n: nat)
    requires c == Config(3, 500_000_000, 10_000_000_000, 2.0)
    ensures n >= 1 ==> HalfSecond(Waits(c, jitter, junk, n)[0], jitter(0))
    ensures n >= 2 ==> OneSecond(Waits(c, jitter, junk, n)[1], jitter(1))
  {
    WorkerDelays(c, junk);
    if n >= 1 {
      WaitAt(c, jitter, junk, n, 0);
      JitterIsProduct(500_000_000, jitter(0), junk);
    }
    if n >= 2 {
      WaitAt(c, jitter, junk, n, 1);
      JitterIsProduct(1_000_000_000, jitter(1), junk);
    }
  }

  lemma SameOutcome(o: Oracle, c: nat, calls: nat, res: Result)
    requires Ended(SendAt(o, c), CancelAt(o, c), 3, calls, res)
    ensures (calls, res) == Outcome(o, c, 0)
  {
    OutcomeEnded(o, c, 0);
    var (n, r) := Outcome(o, c, 0);
    EndedUnique(SendAt(o, c), CancelAt(o, c), 3, calls, res, n, r);
  }

  lemma AttemptWaits(c: Config, jitter: nat -> Jitter, junk: int, waits: seq<int>)
    requires c == Config(3, 500_000_000, 10_000_000_000, 2.0)
    requires |waits| <= 2 && waits == Waits(c, jitter, junk, |waits|)
    ensures Backoff.Sum(waits) <= 1_875_000_000
    ensures |waits| >= 1 ==> HalfSecond(waits[0], jitter(0))
    ensures |waits| >= 2 ==> OneSecond(waits[1], jitter(1))
  {
    WaitsPerChannel(c, jitter, junk, |waits|);
    WorkerWaits(c, jitter, junk, |waits|);
  }

  class DeliveryWorker {
    const names: seq<string>
    const dlq: Memory
    var log: seq<Effect>

    constructor (names: seq<string>, dlq: Memory)
      ensures this.names == names && this.dlq == dlq && log == []
    {
      this.names, this.dlq, log := names, dlq, [];
    }

    /** The retry loop of one channel. */
    method Attempt(c: nat, o: Oracle, jitter: nat -> Jitter, junk: int)
      returns (calls: nat, res: Result, waits: seq<int>)
      ensures (calls, res) == Outcome(o, c, 0)
      ensures |waits| <= 2 && Backoff.Sum(waits) <= 1_875_000_000
      ensures |waits| >= 1 ==> HalfSecond(waits[0], jitter(0))
      ensures |waits| >= 2 ==> OneSecond(waits[1], jitter(1))
    {
      OptionsFold();
      res, calls, waits := Do(SendAt(o, c), CancelAt(o, c), jitter, junk, OPTIONS);
      SameOutcome(o, c, calls, res);
      AttemptWaits(Fold(OPTIONS), jitter, junk, waits);
    }

    /** One channel: its sends, and the dead letter queue if they fail. */
    method Deliver(c: nat, body: Bytes, o: Oracle, jitter: nat -> Jitter, junk: int) returns (ghost es: seq<Effect>)
      requires c < |names| && dlq.Valid() && dlq.capacity >= 1
      modifies this`log, dlq, dlq.base
      ensures dlq.Valid() && dlq.base == old(dlq.base)
      ensures es == ChannelEffects(names, body, o, c)
      ensures log == old(log) + es
      ensures dlq.epoch == old(dlq.epoch) + Letters(es)
    {
      var calls, res, waits := Attempt(c, o, jitter, junk);
      var sends := Sends(c, 0, calls, res.Success?);
      ghost var burial := Burial(names, body, o, c, res);
      NoLetters(sends);
      LettersConcat(sends, burial);
      es := sends + burial;
      log := log + sends;
      if !res.Success? {
        var letter := Letter(names[c], body, res);
        var panics := dlq.Push(letter, o.now(c));
        OneLetter(burial);
        log := log + [Buried(c, Stamp(letter, o.now(c)))];
      }
    }

    /** All channels in order; a failure of one does not keep the next from its turn. */
    method DeliverAll(body: Bytes, o: Oracle, jitter: (nat, nat) -> Jitter, junk: int)
      requires dlq.Valid() && dlq.capacity >= 1
      modifies this`log, dlq, dlq.base
      ensures dlq.Valid() && dlq.base == old(dlq.base)
      ensures log + [Acked] == old(log) + FromChannel(names, body, o, 0)
      ensures dlq.epoch == old(dlq.epoch) + Letters(FromChannel(names, body, o, 0))
    {
      ghost var all := FromChannel(names, body, o, 0);
      ghost var done: seq<Effect> := [];
      var c := 0;
      while c < |names|
        invariant 0 <= c <= |names| && dlq.Valid() && dlq.base == old(dlq.base)
        invariant log == old(log) + done && dlq.epoch == old(dlq.epoch) + Letters(done)
        invariant done + FromChannel(names, body, o, c) == all
      {
        ghost var later := FromChannel(names, body, o, c + 1);
        ghost var here := Deliver(c, body, o, k => jitter(c, k), junk);
        Associate(done, here, later);
        LettersConcat(done, here);
        Associate(old(log), done, here);
        Associate(old(dlq.epoch), Letters(done), Letters(here));
        done := done + here;
        c := c + 1;
      }
      Associate(old(log), done, [Acked]);
      AckHasNoLetter(done);
    }

    /** Delivers one message; `jitter` is indexed by channel and attempt. */
    method HandleMessage(body: Bytes, decodes: bool, o: Oracle, jitter: (nat, nat) -> Jitter, junk: int)
      requires dlq.Valid() && dlq.capacity >= 1
      modifies this`log, dlq, dlq.base
      ensures dlq.Valid()
      ensures log == old(log) + Handle(names, body, decodes, o)
      ensures dlq.epoch == old(dlq.epoch) + Letters(Handle(names, body, decodes, o))
    {
      if decodes {
        TaskRuns(names, body, o, 0);
        DeliverAll(body, o, jitter, junk);
      } else {
        UndecodableAcked(names, body, o);
        NoLetters([Acked]);
      }
      log := log + [Acked];
    }
  }
}
