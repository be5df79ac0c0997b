/** Whole sequences of queue operations: the heap against a sorted list, and the drained order. */
module HeapRuns {
  import opened Sequences
  import opened PriorityOrder
  import opened Heap

  datatype Op = PushItem(item: Item) | TryPop

  datatype Outcome = Pushed | Popped(item: Item) | Empty

  /** The part of an outcome on which the heap and the list agree. */
  datatype Seen = SawPush | SawKey(key: Key) | SawEmpty

  function See(o: Outcome): Seen {
    match o
    case Pushed => SawPush
    case Popped(x) => SawKey(KeyOf(x))
    case Empty => SawEmpty
  }

  function HeapRun(s: seq<Item>, ops: seq<Op>): (r: seq<Outcome>)
    ensures |r| == |ops|
    decreases |ops|
  {
    if ops == [] then []
    else match ops[0]
      case PushItem(x) => [Pushed] + HeapRun(Push(s, x), ops[1..])
      case TryPop =>
        if s == [] then [Empty] + HeapRun(s, ops[1..])
        else [Popped(s[0])] + HeapRun(Pop(s), ops[1..])
  }

  /** The reference: a list kept in leaving order, a new item going behind the items it does not beat. */
  function Insert(l: seq<Item>, x: Item): (r: seq<Item>)
    ensures |r| == |l| + 1
  {
    if l == [] || Below(l[0], x) then [x] + l else [l[0]] + Insert(l[1..], x)
  }

  function ListRun(l: seq<Item>, ops: seq<Op>): (r: seq<Outcome>)
    ensures |r| == |ops|
    decreases |ops|
  {
    if ops == [] then []
    else match ops[0]
      case PushItem(x) => [Pushed] + ListRun(Insert(l, x), ops[1..])
      case TryPop =>
        if l == [] then [Empty] + ListRun(l, ops[1..])
        else [Popped(l[0])] + ListRun(l[1..], ops[1..])
  }

  // ---------------------------------------------------------------- keys

  function Keys(s: seq<Item>): (r: seq<Key>)
    ensures |r| == |s|
    ensures forall i :: 0 <= i < |s| ==> r[i] == KeyOf(s[i])
  {
    seq(|s|, i requires 0 <= i < |s| => KeyOf(s[i]))
  }

  lemma KeysConcat(s: seq<Item>, t: seq<Item>)
    ensures Keys(s + t) == Keys(s) + Keys(t)
  {
  }

  /** Reordering items reorders their keys. */
  lemma {:induction false} KeysPermutation(s: seq<Item>, t: seq<Item>)
    requires multiset(s) == multiset(t)
    ensures multiset(Keys(s)) == multiset(Keys(t))
  {
    if s == [] {
      assert |multiset(t)| == |t|;
    } else {
      var i, rest := MatchHead(s, t);
      KeysPermutation(s[1..], rest);
      HeadItems(Keys(s));
      assert Keys(s)[1..] == Keys(s[1..]);
      KeysWithout(t, i);
    }
  }

  lemma KeysWithout(t: seq<Item>, i: nat)
    requires i < |t|
    ensures multiset(Keys(t)) == multiset{KeyOf(t[i])} + multiset(Keys(t[..i] + t[i + 1..]))
  {
    var ks := Keys(t);
    assert ks == ks[..i] + ([ks[i]] + ks[i + 1..]);
    assert Keys(t[..i] + t[i + 1..]) == ks[..i] + ks[i + 1..];
  }

  /** `k` is the largest key of `bag`, so there is only one such key. */
  ghost predicate Top(k: Key, bag: multiset<Key>) {
    k in bag && forall y :: y in bag ==> !KeyBelow(k, y)
  }

  lemma TopUnique(j: Key, k: Key, bag: multiset<Key>)
    requires Top(j, bag) && Top(k, bag)
    ensures j == k
  {
    assert !KeyBelow(j, k) && !KeyBelow(k, j);
  }

  lemma PreferredIsTop(x: Item, s: seq<Item>)
    requires x in s && Preferred(x, multiset(s))
    ensures Top(KeyOf(x), multiset(Keys(s)))
  {
    var i :| 0 <= i < |s| && s[i] == x;
    assert Keys(s)[i] == KeyOf(x);
    forall y | y in multiset(Keys(s))
      ensures !KeyBelow(KeyOf(x), y)
    {
      var j :| 0 <= j < |s| && Keys(s)[j] == y;
      assert s[j] in multiset(s);
    }
  }

  lemma RemoveKey(s: seq<Item>, t: seq<Item>, x: Item)
    requires multiset(s) == multiset(t) + multiset{x}
    ensures multiset(Keys(s)) == multiset(Keys(t)) + multiset{KeyOf(x)}
  {
    KeysPermutation(s, t + [x]);
    KeysConcat(t, [x]);
    assert Keys([x]) == [KeyOf(x)];
  }

  // ---------------------------------------------------------------- the sorted list

  lemma {:induction false} InsertItems(l: seq<Item>, x: Item)
    ensures multiset(Insert(l, x)) == multiset(l) + multiset{x}
  {
    if l != [] && !Below(l[0], x) {
      InsertItems(l[1..], x);
      HeadItems(l);
    }
  }

  lemma {:induction false} InsertInOrder(l: seq<Item>, x: Item)
    requires LeavesInOrder(l)
    ensures LeavesInOrder(Insert(l, x))
  {
    if l == [] {
    } else if Below(l[0], x) {
      HeadPreferred(l);
      HeadFirst(x, l);
    } else {
      HeadPreferred(l);
      InsertInOrder(l[1..], x);
      InsertItems(l[1..], x);
      HeadFirst(l[0], Insert(l[1..], x));
    }
  }

  lemma HeadPreferred(l: seq<Item>)
    requires LeavesInOrder(l) && l != []
    ensures Preferred(l[0], multiset(l))
    ensures LeavesInOrder(l[1..])
    ensures multiset(l) == multiset{l[0]} + multiset(l[1..])
  {
    HeadItems(l);
    var rest := l[1..];
    forall y | y in multiset(rest)
      ensures !Below(l[0], y)
    {
      var j :| 0 <= j < |rest| && rest[j] == y;
      assert l[j + 1] == y;
    }
  }

  /** The best keys of two sequences with the same keys are the same. */
  lemma SameTop(s: seq<Item>, l: seq<Item>)
    requires s != [] && l != [] && multiset(Keys(s)) == multiset(Keys(l))
    requires Preferred(s[0], multiset(s)) && Preferred(l[0], multiset(l))
    ensures KeyOf(s[0]) == KeyOf(l[0])
  {
    PreferredIsTop(s[0], s);
    PreferredIsTop(l[0], l);
    TopUnique(KeyOf(s[0]), KeyOf(l[0]), multiset(Keys(s)));
  }

  lemma SameKeysPop(s: seq<Item>, l: seq<Item>)
    requires IsHeap(s) && LeavesInOrder(l) && s != [] && l != []
    requires multiset(Keys(s)) == multiset(Keys(l))
    ensures KeyOf(s[0]) == KeyOf(l[0])
    ensures multiset(Keys(Pop(s))) == multiset(Keys(l[1..]))
  {
    PopCorrect(s);
    HeadPreferred(l);
    SameTop(s, l);
    RemoveKey(s, Pop(s), s[0]);
    RemoveKey(l, l[1..], l[0]);
    CancelKey(multiset(Keys(Pop(s))), multiset(Keys(l[1..])), KeyOf(s[0]));
  }

  lemma CancelKey(a: multiset<Key>, b: multiset<Key>, k: Key)
    requires a + multiset{k} == b + multiset{k}
    ensures a == b
  {
    assert a == a + multiset{k} - multiset{k};
    assert b == b + multiset{k} - multiset{k};
  }

  lemma SameKeysPush(s: seq<Item>, l: seq<Item>, x: Item)
    requires IsHeap(s) && multiset(Keys(s)) == multiset(Keys(l))
    ensures multiset(Keys(Push(s, x))) == multiset(Keys(Insert(l, x)))
  {
    PushCorrect(s, x);
    InsertItems(l, x);
    RemoveKey(Push(s, x), s, x);
    RemoveKey(Insert(l, x), l, x);
  }

  ghost predicate SameSeen(a: seq<Outcome>, b: seq<Outcome>) {
    |a| == |b| && forall i :: 0 <= i < |a| ==> See(a[i]) == See(b[i])
  }

  /** Same success flags and same keys for every sequence of operations, ties included. */
  lemma {:induction false} HeapRefinesList(s: seq<Item>, l: seq<Item>, ops: seq<Op>)
    requires IsHeap(s) && LeavesInOrder(l)
    requires multiset(Keys(s)) == multiset(Keys(l))
    ensures SameSeen(HeapRun(s, ops), ListRun(l, ops))
    decreases |ops|
  {
    assert |multiset(Keys(s))| == |s| && |multiset(Keys(l))| == |l|;
    if ops == [] {
    } else if ops[0].PushItem? {
      var x := ops[0].item;
      SameKeysPush(s, l, x);
      PushCorrect(s, x);
      InsertInOrder(l, x);
      HeapRefinesList(Push(s, x), Insert(l, x), ops[1..]);
    } else if s == [] {
      HeapRefinesList(s, l, ops[1..]);
    } else {
      SameKeysPop(s, l);
      PopCorrect(s);
      HeapRefinesList(Pop(s), l[1..], ops[1..]);
    }
  }

  // ---------------------------------------------------------------- draining

  function PushAll(s: seq<Item>, xs: seq<Item>): (r: seq<Item>)
    ensures |r| == |s| + |xs|
    decreases |xs|
  {
    if xs == [] then s else PushAll(Push(s, xs[0]), xs[1..])
  }

  /** Pop until empty. */
  function DrainAll(s: seq<Item>): (r: seq<Item>)
    ensures |r| == |s|
    decreases |s|
  {
    if s == [] then [] else [s[0]] + DrainAll(Pop(s))
  }

  lemma {:induction false} PushAllCorrect(s: seq<Item>, xs: seq<Item>)
    requires IsHeap(s)
    ensures IsHeap(PushAll(s, xs))
    ensures multiset(PushAll(s, xs)) == multiset(s) + multiset(xs)
    decreases |xs|
  {
    if xs != [] {
      PushCorrect(s, xs[0]);
      PushAllCorrect(Push(s, xs[0]), xs[1..]);
      assert xs == [xs[0]] + xs[1..];
    }
  }

  lemma {:induction false} DrainAllSorts(s: seq<Item>)
    requires IsHeap(s)
    ensures multiset(DrainAll(s)) == multiset(s)
    ensures LeavesInOrder(DrainAll(s))
    decreases |s|
  {
    if s != [] {
      PopCorrect(s);
      DrainAllSorts(Pop(s));
      HeadFirst(s[0], DrainAll(Pop(s)));
    }
  }

  /** Equal keys only on equal items. */
  ghost predicate KeysTellApart(xs: seq<Item>) {
    forall x, y :: x in xs && y in xs && KeyOf(x) == KeyOf(y) ==> x == y
  }

  lemma {:induction false} SortedUnique(s: seq<Item>, t: seq<Item>)
    requires LeavesInOrder(s) && LeavesInOrder(t)
    requires multiset(s) == multiset(t) && KeysTellApart(s)
    ensures s == t
  {
    assert |multiset(s)| == |s| && |multiset(t)| == |t|;
    if s != [] {
      SameHead(s, t);
      SortedUnique(s[1..], t[1..]);
      assert s == [s[0]] + s[1..] && t == [t[0]] + t[1..];
    }
  }

  lemma SameHead(s: seq<Item>, t: seq<Item>)
    requires LeavesInOrder(s) && LeavesInOrder(t) && s != [] && t != []
    requires multiset(s) == multiset(t) && KeysTellApart(s)
    ensures s[0] == t[0] && multiset(s[1..]) == multiset(t[1..])
  {
    HeadPreferred(s);
    HeadPreferred(t);
    assert s[0] in multiset(t) && t[0] in multiset(s);
    assert !Below(s[0], t[0]) && !Below(t[0], s[0]);
    assert KeyOf(s[0]) == KeyOf(t[0]);
    assert multiset(s[1..]) == multiset(s) - multiset{s[0]};
    assert multiset(t[1..]) == multiset(t) - multiset{t[0]};
  }

  /** What comes out when the items of `xs` are pushed in that order and the queue is then emptied. */
  function PushThenDrain(xs: seq<Item>): seq<Item> {
    DrainAll(PushAll([], xs))
  }

  lemma PushThenDrainSorts(xs: seq<Item>)
    ensures multiset(PushThenDrain(xs)) == multiset(xs)
    ensures LeavesInOrder(PushThenDrain(xs))
  {
    PushAllCorrect([], xs);
    DrainAllSorts(PushAll([], xs));
  }

  /** In plain numbers: in what is drained no level rises, and at one level no instant falls. */
  lemma DrainedByLevel(xs: seq<Item>, i: nat, j: nat)
    requires i < j < |xs|
    ensures var out := PushThenDrain(xs);
      && |out| == |xs|
      && out[i].level >= out[j].level
      && (out[i].level == out[j].level ==> out[i].createdAt <= out[j].createdAt)
  {
    PushThenDrainSorts(xs);
    LeavesInOrderMeans(PushThenDrain(xs));
  }

  // ---------------------------------------------------------------- renaming

  /** `f` changes items but no key; the heap cannot notice. */
  ghost predicate KeepsKeys(f: Item -> Item) {
    forall x :: KeyOf(f(x)) == KeyOf(x)
  }

  function Rename(f: Item -> Item, s: seq<Item>): (r: seq<Item>)
    ensures |r| == |s|
    ensures forall i :: 0 <= i < |s| ==> r[i] == f(s[i])
  {
    seq(|s|, i requires 0 <= i < |s| => f(s[i]))
  }

  lemma {:induction false} SiftUpRenamed(f: Item -> Item, s: seq<Item>, i: int)
    requires KeepsKeys(f) && 0 <= i < |s|
    ensures SiftUp(Rename(f, s), i) == Rename(f, SiftUp(s, i))
    decreases i
  {
    if Rises(s, i) {
      SiftUpRenamed(f, Swap(s, i, Parent(i)), Parent(i));
      assert Swap(Rename(f, s), i, Parent(i)) == Rename(f, Swap(s, i, Parent(i)));
    }
  }

  lemma {:induction false} SiftDownRenamed(f: Item -> Item, s: seq<Item>, i: int)
    requires KeepsKeys(f) && 0 <= i < |s|
    ensures SiftDown(Rename(f, s), i) == Rename(f, SiftDown(s, i))
    decreases |s| - i
  {
    var b := Best(s, i);
    assert Best(Rename(f, s), i) == b;
    if b != i {
      SiftDownRenamed(f, Swap(s, i, b), b);
      assert Swap(Rename(f, s), i, b) == Rename(f, Swap(s, i, b));
    }
  }

  lemma {:induction false} PushAllRenamed(f: Item -> Item, s: seq<Item>, xs: seq<Item>)
    requires KeepsKeys(f)
    ensures PushAll(Rename(f, s), Rename(f, xs)) == Rename(f, PushAll(s, xs))
    decreases |xs|
  {
    if xs != [] {
      var x := xs[0];
      SiftUpRenamed(f, s + [x], |s|);
      assert Rename(f, s) + [f(x)] == Rename(f, s + [x]);
      assert Push(Rename(f, s), f(x)) == Rename(f, Push(s, x));
      assert Rename(f, xs)[1..] == Rename(f, xs[1..]);
      PushAllRenamed(f, Push(s, x), xs[1..]);
    }
  }

  lemma {:induction false} DrainAllRenamed(f: Item -> Item, s: seq<Item>)
    requires KeepsKeys(f)
    ensures DrainAll(Rename(f, s)) == Rename(f, DrainAll(s))
    decreases |s|
  {
    if s != [] {
      PopRenamed(f, s);
      DrainAllRenamed(f, Pop(s));
      RenameCons(f, s[0], DrainAll(Pop(s)));
    }
  }

  lemma RenameCons(f: Item -> Item, x: Item, s: seq<Item>)
    ensures Rename(f, [x] + s) == [f(x)] + Rename(f, s)
  {
  }

  lemma PopRenamed(f: Item -> Item, s: seq<Item>)
    requires KeepsKeys(f) && s != []
    ensures Pop(Rename(f, s)) == Rename(f, Pop(s))
  {
    var t := Beheaded(s);
    assert Beheaded(Rename(f, s)) == Rename(f, t);
    if t != [] {
      SiftDownRenamed(f, t, 0);
    }
  }

  lemma PushThenDrainRenamed(f: Item -> Item, xs: seq<Item>)
    requires KeepsKeys(f)
    ensures PushThenDrain(Rename(f, xs)) == Rename(f, PushThenDrain(xs))
  {
    assert Rename(f, []) == [];
    PushAllRenamed(f, [], xs);
    DrainAllRenamed(f, PushAll([], xs));
  }

  // Items that carry nothing but their key and a number, and the way back to the items of `xs`.

  function Label(k: nat): (r: string)
    ensures |r| == k
  {
    seq(k, _ => '#')
  }

  function Numbered(xs: seq<Item>): (r: seq<Item>)
    ensures |r| == |xs|
    ensures forall k :: 0 <= k < |xs| ==> r[k] == Item(Label(k), xs[k].level, [], xs[k].createdAt)
  {
    seq(|xs|, k requires 0 <= k < |xs| => Item(Label(k), xs[k].level, [], xs[k].createdAt))
  }

  function Denumber(xs: seq<Item>): (f: Item -> Item)
    ensures KeepsKeys(f)
  {
    (x: Item) => if |x.id| < |xs| && KeyOf(xs[|x.id|]) == KeyOf(x) then xs[|x.id|] else x
  }

  lemma DenumberNumbered(xs: seq<Item>, ys: seq<Item>)
    requires |xs| == |ys| && forall k :: 0 <= k < |xs| ==> KeyOf(xs[k]) == KeyOf(ys[k])
    ensures Rename(Denumber(ys), Numbered(xs)) == ys
  {
  }

  /** `ys` is another order in which the items of `xs` can be pushed. */
  ghost predicate Reordered(xs: seq<Item>, ys: seq<Item>) {
    multiset(ys) == multiset(xs)
  }

  ghost predicate OrderIndependent(xs: seq<Item>) {
    forall ys :: Reordered(xs, ys) ==> PushThenDrain(ys) == PushThenDrain(xs)
  }

  lemma DistinctDrainAlike(xs: seq<Item>, ys: seq<Item>)
    requires KeysTellApart(xs) && Reordered(xs, ys)
    ensures PushThenDrain(ys) == PushThenDrain(xs)
  {
    PushThenDrainSorts(xs);
    PushThenDrainSorts(ys);
    var out := PushThenDrain(xs);
    assert forall x :: x in out ==> x in multiset(xs);
    SortedUnique(out, PushThenDrain(ys));
  }

  /**
   * The drained order is the same for every push order if no two different items share a key, and
   * only then.
   */
  lemma CanonicalOrder(xs: seq<Item>)
    ensures OrderIndependent(xs) <==> KeysTellApart(xs)
  {
    if KeysTellApart(xs) {
      forall ys | Reordered(xs, ys)
        ensures PushThenDrain(ys) == PushThenDrain(xs)
      {
        DistinctDrainAlike(xs, ys);
      }
    } else {
      var a, b :| a in xs && b in xs && KeyOf(a) == KeyOf(b) && a != b;
      var i :| 0 <= i < |xs| && xs[i] == a;
      var j :| 0 <= j < |xs| && xs[j] == b;
      TieFollowsPushOrder(xs, i, j);
    }
  }

  /** Exchanging two different items of equal key in the push order exchanges them in the output. */
  lemma TieFollowsPushOrder(xs: seq<Item>, i: nat, j: nat)
    requires i < |xs| && j < |xs| && KeyOf(xs[i]) == KeyOf(xs[j]) && xs[i] != xs[j]
    ensures PushThenDrain(Swap(xs, i, j)) != PushThenDrain(xs)
    ensures Reordered(xs, Swap(xs, i, j))
  {
    var ys := Swap(xs, i, j);
    var plain := Numbered(xs);
    DenumberNumbered(xs, xs);
    DenumberNumbered(xs, ys);
    PushThenDrainRenamed(Denumber(xs), plain);
    PushThenDrainRenamed(Denumber(ys), plain);
    PushThenDrainSorts(plain);
    var out := PushThenDrain(plain);
    assert plain[i] in multiset(out);
    var k :| 0 <= k < |out| && out[k] == plain[i];
    assert PushThenDrain(xs)[k] == xs[i] && PushThenDrain(ys)[k] == ys[i];
  }
}
