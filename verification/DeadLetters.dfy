/** The bounded in-memory dead letter queue: a slice over a backing array, shifted in place. */
module DeadLetters {
  import opened PriorityOrder
  import Retry

  /** The subject a message came from; the pipeline uses one. */
  datatype Topic = RDispatchDeliver | Other(name: string)

  /** Why processing failed: the two parts of the worker's message, or any other text. */
  datatype Failure = ChannelFailed(channel: string, why: Retry.Result) | Text(text: string)

  /** `failedAt` is an instant; 0 stands for the zero time. Headers are a list of pairs. */
  datatype Message = Message(
    originalTopic: Topic,
    key: Bytes,
    value: Bytes,
    error: Failure,
    attempts: int,
    failedAt: int,
    headers: map<string, string>
  )

  const BLANK := Message(Other(""), [], [], Text(""), 0, 0, map[])

  /** A zero FailedAt is replaced by the clock; nothing else changes. */
  function Stamp(msg: Message, now: int): Message {
    if msg.failedAt == 0 then msg.(failedAt := now) else msg
  }

  /** `kept` is `msg` in every field, but for a zero time, which is replaced by `now`. */
  predicate Keeps(kept: Message, msg: Message, now: int) {
    && kept.originalTopic == msg.originalTopic
    && kept.key == msg.key && kept.value == msg.value
    && kept.error == msg.error && kept.attempts == msg.attempts
    && kept.headers == msg.headers
    && kept.failedAt == (if msg.failedAt != 0 then msg.failedAt else now)
  }

  lemma StampKeeps(msg: Message, now: int)
    ensures Keeps(Stamp(msg, now), msg, now)
  {
  }

  /** The last `capacity` elements. */
  function Window<T>(s: seq<T>, capacity: nat): (w: seq<T>)
    ensures |w| <= capacity && |w| <= |s|
  {
    if |s| <= capacity then s else s[|s| - capacity..]
  }

  /** The window is as long as it can be, and element by element the end of the sequence. */
  lemma WindowIsEnd<T>(s: seq<T>, capacity: nat)
    ensures |Window(s, capacity)| == if |s| < capacity then |s| else capacity
    ensures forall k :: 0 <= k < |Window(s, capacity)| ==>
      Window(s, capacity)[k] == s[|s| - |Window(s, capacity)| + k]
  {
  }

  /** Appending to a window and dropping its oldest element is appending to the whole and windowing. */
  lemma WindowStep<T>(s: seq<T>, x: T, capacity: nat)
    requires capacity >= 1
    ensures Window(s + [x], capacity) ==
      if |Window(s, capacity)| < capacity then Window(s, capacity) + [x] else Window(s, capacity)[1..] + [x]
  {
  }

  /** What a client holds after Drain or Messages: a slice of an array. */
  datatype Slice = Slice(base: array<Message>, len: nat)

  class Memory {
    var base: array<Message>
    var len: nat
    const capacity: nat
    // Everything pushed since the last Drain, stamped, and the arrays handed to clients.
    ghost var epoch: seq<Message>
    ghost var given: set<array<Message>>

    ghost predicate Valid()
      reads this, base
    {
      && len <= base.Length == capacity
      && base !in given
      && base[..len] == Window(epoch, capacity)
    }

    function Contents(): seq<Message>
      reads this, base
      requires len <= base.Length
    {
      base[..len]
    }

    constructor (capacity: nat)
      ensures Valid() && fresh(base) && this.capacity == capacity
      ensures Contents() == [] && epoch == [] && given == {}
    {
      this.capacity := capacity;
      base := new Message[capacity](_ => BLANK);
      len := 0;
      epoch, given := [], {};
    }

    /** The overlapping copy of a slice onto itself, one place to the left. */
    method ShiftLeft()
      requires 1 <= len <= base.Length
      modifies base
      ensures base[..len - 1] == old(base[1..len])
    {
      var i := 0;
      while i + 1 < len
        invariant 0 <= i < len
        invariant base[..i] == old(base[1..i + 1])
        invariant base[i..] == old(base[i..])
      {
        assert base[i + 1] == base[i..][1];
        assert old(base[i + 1]) == old(base[i..])[1];
        base[i] := base[i + 1];
        i := i + 1;
      }
    }

    /**
     * Adds a message. Go panics on a queue of capacity 0, and on no other; the mutex is then
     * released by the deferred unlock and nothing has changed. The append never needs a larger array.
     */
    method Push(msg: Message, now: int) returns (panics: bool)
      requires Valid()
      modifies this, base
      ensures Valid() && base == old(base) && given == old(given)
      ensures panics <==> capacity == 0
      ensures panics ==> epoch == old(epoch)
      ensures !panics ==> epoch == old(epoch) + [Stamp(msg, now)]
      ensures !panics ==> |epoch| == |old(epoch)| + 1 && epoch[..|old(epoch)|] == old(epoch)
      ensures !panics ==> Keeps(epoch[|old(epoch)|], msg, now)
      ensures Contents() == Window(epoch, capacity)
      ensures !panics ==> |Contents()| >= 1 && Keeps(Contents()[|Contents()| - 1], msg, now)
    {
      var stamped := if msg.failedAt == 0 then msg.(failedAt := now) else msg;
      if len >= capacity {
        if len == 0 {
          return true; // messages[1:] of an empty slice
        }
        ghost var before := base[..len];
        ShiftLeft();
        len := len - 1;
        assert base[..len] == before[1..];
      }
      assert len < base.Length;
      ghost var kept := base[..len];
      base[len] := stamped;
      len := len + 1;
      assert base[..len] == kept + [stamped];
      WindowStep(epoch, stamped, capacity);
      StampKeeps(msg, now);
      epoch := epoch + [stamped];
      panics := false;
    }

    method Len() returns (n: int)
      requires Valid()
      ensures n == |Window(epoch, capacity)|
    {
      n := len;
    }

    /** A copy in an array of its own. */
    method Messages() returns (s: Slice)
      requires Valid()
      modifies this`given
      ensures Valid()
      ensures fresh(s.base) && s.len == s.base.Length && s.base[..] == Contents()
      ensures given == old(given) + {s.base}
    {
      var result := new Message[len](i requires 0 <= i < len && len <= base.Length reads this, base => base[i]);
      assert result[..] == base[..len];
      given := given + {result};
      s := Slice(result, len);
    }

    /** Hands over the backing array itself and goes on with a new one. */
    method Drain() returns (s: Slice)
      requires Valid()
      modifies this
      ensures Valid() && fresh(base)
      ensures s.base == old(base) && s.len == old(len) && s.len <= s.base.Length
      ensures s.base[..s.len] == old(Contents())
      ensures Contents() == [] && epoch == []
      ensures given == old(given) + {s.base}
    {
      s := Slice(base, len);
      given := given + {base};
      base := new Message[capacity](_ => BLANK);
      len := 0;
      epoch := [];
    }
  }

  // ---------------------------------------------------------------- whole runs

  datatype Op = OpPush(msg: Message, now: int) | OpMessages | OpDrain

  /** Messages pushed since the last Drain, after one more operation. */
  function NextEpoch(e: seq<Message>, op: Op): seq<Message> {
    match op
    case OpPush(m, now) => e + [Stamp(m, now)]
    case OpMessages => e
    case OpDrain => []
  }

  /** What one operation shows to its caller. */
  function Show(e: seq<Message>, op: Op, capacity: nat): seq<seq<Message>> {
    if op.OpPush? then [] else [Window(e, capacity)]
  }

  function Epoch(e: seq<Message>, ops: seq<Op>): seq<Message>
    decreases |ops|
  {
    if ops == [] then e else Epoch(NextEpoch(e, ops[0]), ops[1..])
  }

  function Shown(e: seq<Message>, ops: seq<Op>, capacity: nat): seq<seq<Message>>
    decreases |ops|
  {
    if ops == [] then [] else Show(e, ops[0], capacity) + Shown(NextEpoch(e, ops[0]), ops[1..], capacity)
  }

  // The same runs told by the pushes themselves.

  /** The pushes since the last Drain. */
  function PushesSince(p: seq<Op>, ops: seq<Op>): seq<Op>
    decreases |ops|
  {
    if ops == [] then p else PushesSince(NextPushes(p, ops[0]), ops[1..])
  }

  function NextPushes(p: seq<Op>, op: Op): seq<Op> {
    match op
    case OpPush(_, _) => p + [op]
    case OpMessages => p
    case OpDrain => []
  }

  /** Of which pushes each returned slice shows the messages. */
  function ShownPushes(p: seq<Op>, ops: seq<Op>, capacity: nat): seq<seq<Op>>
    decreases |ops|
  {
    if ops == [] then []
    else
      (if ops[0].OpPush? then [] else [Window(p, capacity)]) + ShownPushes(NextPushes(p, ops[0]), ops[1..], capacity)
  }

  /** Message by message, what was pushed. */
  ghost predicate AllKept(ms: seq<Message>, p: seq<Op>) {
    |ms| == |p| && forall i :: 0 <= i < |ms| ==> p[i].OpPush? && Keeps(ms[i], p[i].msg, p[i].now)
  }

  lemma NextKept(e: seq<Message>, p: seq<Op>, op: Op)
    requires AllKept(e, p)
    ensures AllKept(NextEpoch(e, op), NextPushes(p, op))
  {
    if op.OpPush? {
      StampKeeps(op.msg, op.now);
    }
  }

  lemma {:induction false} EpochKept(e: seq<Message>, p: seq<Op>, ops: seq<Op>)
    requires AllKept(e, p)
    ensures AllKept(Epoch(e, ops), PushesSince(p, ops))
    decreases |ops|
  {
    if ops != [] {
      NextKept(e, p, ops[0]);
      EpochKept(NextEpoch(e, ops[0]), NextPushes(p, ops[0]), ops[1..]);
    }
  }

  ghost predicate AllShown(views: seq<seq<Message>>, p: seq<seq<Op>>) {
    |views| == |p| && forall i :: 0 <= i < |views| ==> AllKept(views[i], p[i])
  }

  lemma WindowKept(e: seq<Message>, p: seq<Op>, capacity: nat)
    requires AllKept(e, p)
    ensures AllKept(Window(e, capacity), Window(p, capacity))
  {
  }

  lemma ShowKept(e: seq<Message>, p: seq<Op>, op: Op, capacity: nat)
    requires AllKept(e, p)
    ensures AllShown(Show(e, op, capacity), if op.OpPush? then [] else [Window(p, capacity)])
  {
    WindowKept(e, p, capacity);
  }

  lemma AllShownConcat(v: seq<seq<Message>>, p: seq<seq<Op>>, w: seq<seq<Message>>, q: seq<seq<Op>>)
    requires AllShown(v, p) && AllShown(w, q)
    ensures AllShown(v + w, p + q)
  {
  }

  lemma {:induction false} ShownKept(e: seq<Message>, p: seq<Op>, ops: seq<Op>, capacity: nat)
    requires AllKept(e, p)
    ensures AllShown(Shown(e, ops, capacity), ShownPushes(p, ops, capacity))
    decreases |ops|
  {
    if ops != [] {
      var op := ops[0];
      NextKept(e, p, op);
      ShownKept(NextEpoch(e, op), NextPushes(p, op), ops[1..], capacity);
      ShowKept(e, p, op, capacity);
      AllShownConcat(
        Show(e, op, capacity), if op.OpPush? then [] else [Window(p, capacity)],
        Shown(NextEpoch(e, op), ops[1..], capacity), ShownPushes(NextPushes(p, op), ops[1..], capacity));
    }
  }

  /** What a client sees through its slices now. */
  function Views(slices: seq<Slice>): (v: seq<seq<Message>>)
    requires forall i :: 0 <= i < |slices| ==> slices[i].len <= slices[i].base.Length
    reads set i | 0 <= i < |slices| :: slices[i].base
    ensures |v| == |slices|
    ensures forall i :: 0 <= i < |slices| ==> v[i] == slices[i].base[..slices[i].len]
  {
    if slices == [] then []
    else [slices[0].base[..slices[0].len]] + Views(slices[1..])
  }

  method Perform(m: Memory, op: Op) returns (out: seq<Slice>)
    requires m.Valid() && m.capacity >= 1
    modifies m, m.base
    ensures m.Valid() && m.epoch == NextEpoch(old(m.epoch), op)
    ensures m.base == old(m.base) || fresh(m.base)
    ensures |out| == |Show(old(m.epoch), op, m.capacity)|
    ensures forall k :: 0 <= k < |out| ==> out[k].len <= out[k].base.Length && out[k].base in m.given
    ensures forall k :: 0 <= k < |out| ==> out[k].base[..out[k].len] == Show(old(m.epoch), op, m.capacity)[k]
    ensures old(m.given) <= m.given
  {
    out := [];
    match op {
      case OpPush(msg, now) =>
        var panics := m.Push(msg, now);
      case OpMessages =>
        var s := m.Messages();
        out := [s];
      case OpDrain =>
        var s := m.Drain();
        out := [s];
    }
  }

  /** The operations one after the other. */
  method Play(m: Memory, ops: seq<Op>) returns (slices: seq<Slice>)
    requires m.Valid() && m.capacity >= 1
    modifies m, m.base
    ensures m.Valid() && m.Contents() == Window(Epoch(old(m.epoch), ops), m.capacity)
    ensures forall i :: 0 <= i < |slices| ==> slices[i].len <= slices[i].base.Length
    ensures Views(slices) == Shown(old(m.epoch), ops, m.capacity)
  {
    slices := [];
    ghost var seen: seq<seq<Message>> := [];
    var i := 0;
    while i < |ops|
      invariant 0 <= i <= |ops| && m.Valid()
      invariant m.base == old(m.base) || fresh(m.base)
      invariant |seen| == |slices|
      invariant forall k :: 0 <= k < |slices| ==> slices[k].base in m.given
      invariant forall k :: 0 <= k < |slices| ==> slices[k].len <= slices[k].base.Length
      invariant forall k :: 0 <= k < |slices| ==> slices[k].base[..slices[k].len] == seen[k]
      invariant Epoch(m.epoch, ops[i..]) == Epoch(old(m.epoch), ops)
      invariant seen + Shown(m.epoch, ops[i..], m.capacity) == Shown(old(m.epoch), ops, m.capacity)
    {
      assert ops[i..][1..] == ops[i + 1..];
      ghost var now := Show(m.epoch, ops[i], m.capacity);
      ghost var later := Shown(NextEpoch(m.epoch, ops[i]), ops[i + 1..], m.capacity);
      assert seen + (now + later) == seen + now + later;
      var out := Perform(m, ops[i]);
      slices, seen := slices + out, seen + now;
      i := i + 1;
    }
    assert ops[i..] == [];
    assert Views(slices) == seen;
  }

  lemma ClientSees(views: seq<seq<Message>>, contents: seq<Message>, ops: seq<Op>, capacity: nat)
    requires views == Shown([], ops, capacity) && contents == Window(Epoch([], ops), capacity)
    ensures AllShown(views, ShownPushes([], ops, capacity))
    ensures AllKept(contents, Window(PushesSince([], ops), capacity))
  {
    ShownKept([], [], ops, capacity);
    EpochKept([], [], ops);
    WindowKept(Epoch([], ops), PushesSince([], ops), capacity);
  }

  /**
   * Any client program. At its end every slice that it was ever given still shows what it showed
   * when it was returned, which is the window of the epoch at that time: message by message what was
   * pushed since the Drain before.
   */
  method Client(m: Memory, ops: seq<Op>) returns (slices: seq<Slice>)
    requires m.Valid() && m.capacity >= 1
    modifies m, m.base
    ensures m.Valid() && m.Contents() == Window(Epoch(old(m.epoch), ops), m.capacity)
    ensures forall i :: 0 <= i < |slices| ==> slices[i].len <= slices[i].base.Length
    ensures Views(slices) == Shown(old(m.epoch), ops, m.capacity)
    ensures old(m.epoch) == [] ==> AllShown(Views(slices), ShownPushes([], ops, m.capacity))
    ensures old(m.epoch) == [] ==> AllKept(m.Contents(), Window(PushesSince([], ops), m.capacity))
  {
    slices := Play(m, ops);
    if old(m.epoch) == [] {
      ClientSees(Views(slices), m.Contents(), ops, m.capacity);
    }
  }
}
