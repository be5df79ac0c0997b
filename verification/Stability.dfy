/** Exactly when items of equal key leave in the order in which they were pushed. */
module Stability {
  import opened Sequences
  import opened PriorityOrder
  import opened Heap
  import opened HeapRuns

  /** Items of equal key have their push positions, which their labels are, in ascending order. */
  ghost predicate FirstInFirstOut(out: seq<Item>) {
    forall p, q :: 0 <= p < q < |out| && KeyOf(out[p]) == KeyOf(out[q]) ==> |out[p].id| < |out[q].id|
  }

  /** Pushed in the order of `ys` and drained, items of equal key leave first in, first out. */
  ghost predicate DrainsStably(ys: seq<Item>) {
    FirstInFirstOut(PushThenDrain(Numbered(ys)))
  }

  ghost predicate StableInEveryOrder(xs: seq<Item>) {
    forall ys :: Reordered(xs, ys) ==> DrainsStably(ys)
  }

  // The same while pushes and pops alternate.

  function PushedItems(ops: seq<Op>): seq<Item> {
    if ops == [] then []
    else (if ops[0].PushItem? then [ops[0].item] else []) + PushedItems(ops[1..])
  }

  /** What the pops among `ops` return, in order. */
  function PoppedItems(s: seq<Item>, ops: seq<Op>): seq<Item>
    decreases |ops|
  {
    if ops == [] then []
    else match ops[0]
      case PushItem(x) => PoppedItems(Push(s, x), ops[1..])
      case TryPop =>
        if s == [] then PoppedItems(s, ops[1..]) else [s[0]] + PoppedItems(Pop(s), ops[1..])
  }

  function Plain(x: Item, n: nat): Item {
    Item(Label(n), x.level, [], x.createdAt)
  }

  /** The pushes among `ops`, numbered from `n` on. */
  function NumberedOps(ops: seq<Op>, n: nat): seq<Op>
    decreases |ops|
  {
    if ops == [] then []
    else match ops[0]
      case PushItem(x) => [PushItem(Plain(x, n))] + NumberedOps(ops[1..], n + 1)
      case TryPop => [TryPop] + NumberedOps(ops[1..], n)
  }

  /** Items of equal key leave first in, first out, however pops come between the pushes. */
  ghost predicate RunsStably(ops: seq<Op>) {
    FirstInFirstOut(PoppedItems([], NumberedOps(ops, 0)))
  }

  ghost predicate StableThroughout(xs: seq<Item>) {
    forall ops :: Reordered(xs, PushedItems(ops)) ==> RunsStably(ops)
  }

  /** No key occurs twice, but for the greatest one, and that at most twice. */
  ghost predicate TiesOnTopOnly(bag: multiset<Key>) {
    forall k :: k in bag && bag[k] >= 2 ==> bag[k] == 2 && Top(k, bag)
  }

  /** The labels of a drained numbering are positions in `ys`, and `ys` itself drains in that order. */
  lemma LabelsArePositions(ys: seq<Item>)
    ensures var out := PushThenDrain(Numbered(ys));
      && |PushThenDrain(ys)| == |out| == |ys|
      && (forall p :: 0 <= p < |out| ==> |out[p].id| < |ys| && out[p] == Numbered(ys)[|out[p].id|])
      && (forall p :: 0 <= p < |out| ==> PushThenDrain(ys)[p] == ys[|out[p].id|])
  {
    var plain := Numbered(ys);
    var out := PushThenDrain(plain);
    PushThenDrainSorts(plain);
    forall p | 0 <= p < |out|
      ensures |out[p].id| < |ys| && out[p] == plain[|out[p].id|]
    {
      assert out[p] in multiset(plain);
      var k :| 0 <= k < |plain| && plain[k] == out[p];
    }
    DenumberNumbered(ys, ys);
    PushThenDrainRenamed(Denumber(ys), plain);
  }

  // ---------------------------------------------------------------- the condition suffices

  /** The root changes only for an item strictly preferred to it. */
  lemma {:induction false} SiftUpRoot(s: seq<Item>, i: int)
    requires 0 < i < |s| && HeapButUp(s, i)
    ensures SiftUp(s, i)[0] == if Below(s[0], s[i]) then s[i] else s[0]
    decreases i
  {
    if Rises(s, i) {
      SwapUpStep(s, i);
      if Parent(i) > 0 {
        SiftUpRoot(Swap(s, i, Parent(i)), Parent(i));
      } else {
        assert SiftUp(Swap(s, i, 0), 0) == Swap(s, i, 0);
      }
    } else {
      assert forall c :: 0 < c < |s| ==> InOrder(s, c);
      RootPreferredAt(s, i);
    }
  }

  lemma PushRoot(s: seq<Item>, x: Item)
    requires IsHeap(s) && s != []
    ensures Push(s, x)[0] == if Below(s[0], x) then x else s[0]
  {
    var t := s + [x];
    forall c | 0 < c < |t| && c != |s|
      ensures InOrder(t, c)
    {
      assert InOrder(s, c);
    }
    SiftUpRoot(t, |s|);
  }

  /** Labels tell items apart. */
  ghost predicate Distinct(bag: multiset<Item>) {
    && (forall x, y :: x in bag && y in bag && |x.id| == |y.id| ==> x == y)
    && (forall x :: bag[x] <= 1)
  }

  /** Everything still to be pushed has a later label than anything in `bag`, and in ascending order. */
  ghost predicate Later(bag: multiset<Item>, xs: seq<Item>) {
    && (forall x, j :: x in bag && 0 <= j < |xs| ==> |x.id| < |xs[j].id|)
    && (forall i, j :: 0 <= i < j < |xs| ==> |xs[i].id| < |xs[j].id|)
  }

  /** The root was pushed first among the items that tie with it. */
  ghost predicate RootFirst(s: seq<Item>) {
    s != [] ==> forall y :: y in multiset(s) && KeyOf(y) == KeyOf(s[0]) ==> |s[0].id| <= |y.id|
  }

  lemma FewerTies(bag: multiset<Key>, sub: multiset<Key>)
    requires TiesOnTopOnly(bag) && sub <= bag
    ensures TiesOnTopOnly(sub)
  {
    forall k | k in sub && sub[k] >= 2
      ensures sub[k] == 2 && Top(k, sub)
    {
      assert bag[k] >= 2;
      assert forall y :: y in sub ==> y in bag;
    }
  }

  /** A push makes the root give way only to an item that ties with nothing. */
  lemma PushKeepsRootFirst(s: seq<Item>, x: Item)
    requires IsHeap(s) && RootFirst(s) && forall y :: y in multiset(s) ==> |y.id| < |x.id|
    ensures RootFirst(Push(s, x))
  {
    PushCorrect(s, x);
    if s != [] {
      PushRoot(s, x);
      RootPreferred(s);
    } else {
      assert Push(s, x) == [x];
    }
  }

  lemma AddDistinct(bag: multiset<Item>, x: Item)
    requires Distinct(bag) && forall y :: y in bag ==> |y.id| < |x.id|
    ensures Distinct(bag + multiset{x})
  {
    assert x !in bag;
  }

  lemma AddLater(bag: multiset<Item>, x: Item, xs: seq<Item>)
    requires Later(bag, [x] + xs)
    ensures Later(bag + multiset{x}, xs)
    ensures forall y :: y in bag ==> |y.id| < |x.id|
  {
    var all := [x] + xs;
    assert all[0] == x;
    forall y | y in bag
      ensures |y.id| < |x.id|
    {
      assert |y.id| < |all[0].id|;
    }
    forall j | 0 <= j < |xs|
      ensures |x.id| < |xs[j].id|
      ensures forall y :: y in bag ==> |y.id| < |xs[j].id|
      ensures forall i :: 0 <= i < j ==> |xs[i].id| < |xs[j].id|
    {
      assert xs[j] == all[j + 1];
      forall i | 0 <= i < j
        ensures |xs[i].id| < |xs[j].id|
      {
        assert xs[i] == all[i + 1];
      }
    }
  }

  lemma PushKeepsDistinct(s: seq<Item>, x: Item, xs: seq<Item>)
    requires IsHeap(s) && Distinct(multiset(s)) && Later(multiset(s), [x] + xs)
    ensures Distinct(multiset(Push(s, x))) && Later(multiset(Push(s, x)), xs)
    ensures forall y :: y in multiset(s) ==> |y.id| < |x.id|
  {
    PushCorrect(s, x);
    AddLater(multiset(s), x, xs);
    AddDistinct(multiset(s), x);
  }

  lemma TopTakenOnce(bag: multiset<Key>, r: Key, k: Key)
    requires TiesOnTopOnly(bag + multiset{r}) && !KeyBelow(r, k)
    ensures bag[k] <= 1
  {
    var all := bag + multiset{r};
    assert r in all;
    assert bag[k] >= 2 ==> k in all && all[k] >= 2;
  }

  /** After a pop nothing ties with the new root: at most the old one did. */
  lemma PopLeavesNoTies(s: seq<Item>, j: nat)
    requires IsHeap(s) && s != [] && TiesOnTopOnly(multiset(Keys(s))) && 0 < j < |Pop(s)|
    ensures KeyOf(Pop(s)[j]) != KeyOf(Pop(s)[0])
  {
    var t := Pop(s);
    PopCorrect(s);
    RemoveKey(s, t, s[0]);
    assert t[0] in multiset(s) && !Below(s[0], t[0]);
    TopTakenOnce(multiset(Keys(t)), KeyOf(s[0]), KeyOf(t[0]));
    if KeyOf(t[j]) == KeyOf(t[0]) {
      OccursTwice(Keys(t), 0, j);
    }
  }

  lemma PopKeepsRootFirst(s: seq<Item>)
    requires IsHeap(s) && s != [] && TiesOnTopOnly(multiset(Keys(s)))
    ensures RootFirst(Pop(s))
  {
    var t := Pop(s);
    forall y | y in multiset(t) && KeyOf(y) == KeyOf(t[0])
      ensures |t[0].id| <= |y.id|
    {
      var j :| 0 <= j < |t| && t[j] == y;
      if j > 0 {
        PopLeavesNoTies(s, j);
        assert false;
      }
    }
  }

  lemma PopKeepsDistinct(s: seq<Item>, xs: seq<Item>)
    requires IsHeap(s) && s != [] && Distinct(multiset(s)) && Later(multiset(s), xs)
    ensures Distinct(multiset(Pop(s))) && Later(multiset(Pop(s)), xs)
    ensures s[0] !in multiset(Pop(s)) && forall y :: y in multiset(Pop(s)) ==> y in multiset(s)
  {
    PopCorrect(s);
    assert multiset(s)[s[0]] == multiset(Pop(s))[s[0]] + 1;
    assert forall y :: multiset(Pop(s))[y] <= multiset(s)[y];
  }

  /** What is popped was there or is pushed. */
  ghost predicate FromBoth(out: seq<Item>, bag: multiset<Item>, xs: seq<Item>) {
    forall p :: 0 <= p < |out| ==> out[p] in bag || out[p] in xs
  }

  lemma RootLeavesFirst(s: seq<Item>, xs: seq<Item>, out: seq<Item>)
    requires IsHeap(s) && s != [] && Distinct(multiset(s)) && Later(multiset(s), xs) && RootFirst(s)
    requires FirstInFirstOut(out) && FromBoth(out, multiset(Pop(s)), xs)
    ensures FirstInFirstOut([s[0]] + out) && FromBoth([s[0]] + out, multiset(s), xs)
  {
    PopKeepsDistinct(s, xs);
    var all := [s[0]] + out;
    forall q | 0 < q < |all| && KeyOf(all[q]) == KeyOf(s[0])
      ensures |s[0].id| < |all[q].id|
    {
      assert all[q] == out[q - 1];
      assert s[0] in multiset(s);
      if all[q] in multiset(Pop(s)) {
        assert all[q] in multiset(s) && all[q] != s[0];
      }
    }
  }

  /** From any heap whose root is first among its ties, a run pops ties first in, first out. */
  lemma {:induction false} TiesOnTopRun(s: seq<Item>, ops: seq<Op>)
    requires IsHeap(s) && RootFirst(s)
    requires Distinct(multiset(s)) && Later(multiset(s), PushedItems(ops))
    requires TiesOnTopOnly(multiset(Keys(s)) + multiset(Keys(PushedItems(ops))))
    ensures FirstInFirstOut(PoppedItems(s, ops))
    ensures FromBoth(PoppedItems(s, ops), multiset(s), PushedItems(ops))
    decreases |ops|
  {
    if ops == [] {
    } else if ops[0].PushItem? {
      var x, rest := ops[0].item, PushedItems(ops[1..]);
      PushKeepsDistinct(s, x, rest);
      PushKeepsRootFirst(s, x);
      PushCorrect(s, x);
      KeysAfterPush(s, x, rest);
      TiesOnTopRun(Push(s, x), ops[1..]);
      MoveIn(PoppedItems(s, ops), s, x, rest);
    } else {
      var rest := PushedItems(ops[1..]);
      assert PushedItems(ops) == rest;
      if s == [] {
        TiesOnTopRun(s, ops[1..]);
      } else {
        PopCorrect(s);
        PopKeepsDistinct(s, rest);
        KeysAfterPop(s, rest);
        PopKeepsRootFirst(s);
        TiesOnTopRun(Pop(s), ops[1..]);
        RootLeavesFirst(s, rest, PoppedItems(Pop(s), ops[1..]));
      }
    }
  }

  lemma MoveIn(out: seq<Item>, s: seq<Item>, x: Item, rest: seq<Item>)
    requires IsHeap(s) && FromBoth(out, multiset(Push(s, x)), rest)
    ensures FromBoth(out, multiset(s), [x] + rest)
  {
    PushCorrect(s, x);
    assert ([x] + rest)[0] == x;
    forall p | 0 <= p < |out|
      ensures out[p] in multiset(s) || out[p] in [x] + rest
    {
      assert out[p] in rest ==> out[p] in [x] + rest;
    }
  }

  lemma KeysAfterPush(s: seq<Item>, x: Item, rest: seq<Item>)
    requires IsHeap(s)
    ensures multiset(Keys(Push(s, x))) + multiset(Keys(rest)) == multiset(Keys(s)) + multiset(Keys([x] + rest))
  {
    PushCorrect(s, x);
    RemoveKey(Push(s, x), s, x);
    KeysConcat([x], rest);
    assert Keys([x]) == [KeyOf(x)];
  }

  lemma KeysAfterPop(s: seq<Item>, rest: seq<Item>)
    requires IsHeap(s) && s != [] && TiesOnTopOnly(multiset(Keys(s)) + multiset(Keys(rest)))
    ensures TiesOnTopOnly(multiset(Keys(Pop(s))) + multiset(Keys(rest))) && TiesOnTopOnly(multiset(Keys(s)))
  {
    PopCorrect(s);
    RemoveKey(s, Pop(s), s[0]);
    var bag := multiset(Keys(s)) + multiset(Keys(rest));
    FewerTies(bag, multiset(Keys(Pop(s))) + multiset(Keys(rest)));
    FewerTies(bag, multiset(Keys(s)));
  }

  lemma {:induction false} NumberedPushes(ops: seq<Op>, n: nat)
    ensures var xs, ys := PushedItems(ops), PushedItems(NumberedOps(ops, n));
      |xs| == |ys| && forall j :: 0 <= j < |xs| ==> ys[j] == Plain(xs[j], n + j)
    decreases |ops|
  {
    if ops != [] {
      var rest := ops[1..];
      match ops[0]
      case PushItem(x) =>
        NumberedPushes(rest, n + 1);
        assert NumberedOps(ops, n)[1..] == NumberedOps(rest, n + 1);
      case TryPop =>
        NumberedPushes(rest, n);
        assert NumberedOps(ops, n)[1..] == NumberedOps(rest, n);
    }
  }

  lemma TiesOnTopStable(ops: seq<Op>)
    requires TiesOnTopOnly(multiset(Keys(PushedItems(ops))))
    ensures RunsStably(ops)
  {
    var plain := NumberedOps(ops, 0);
    NumberedPushes(ops, 0);
    assert Keys(PushedItems(plain)) == Keys(PushedItems(ops));
    assert multiset(Keys([])) + multiset(Keys(PushedItems(plain))) == multiset(Keys(PushedItems(plain)));
    TiesOnTopRun([], plain);
  }

  // ---------------------------------------------------------------- draining at the end is one such run

  function Pushes(xs: seq<Item>): (ops: seq<Op>)
    ensures |ops| == |xs|
  {
    seq(|xs|, i requires 0 <= i < |xs| => PushItem(xs[i]))
  }

  function Pops(n: nat): (ops: seq<Op>)
    ensures |ops| == n
  {
    seq(n, _ => TryPop)
  }

  function NumberedFrom(xs: seq<Item>, n: nat): (r: seq<Item>)
    ensures |r| == |xs|
  {
    seq(|xs|, i requires 0 <= i < |xs| => Plain(xs[i], n + i))
  }

  lemma {:induction false} NumberedPops(k: nat, n: nat)
    ensures NumberedOps(Pops(k), n) == Pops(k) && PushedItems(Pops(k)) == []
  {
    if k > 0 {
      assert Pops(k)[1..] == Pops(k - 1);
      NumberedPops(k - 1, n);
      assert Pops(k) == [TryPop] + Pops(k - 1);
    }
  }

  lemma {:induction false} NumberedPushPop(xs: seq<Item>, n: nat, k: nat)
    ensures NumberedOps(Pushes(xs) + Pops(k), n) == Pushes(NumberedFrom(xs, n)) + Pops(k)
    ensures PushedItems(Pushes(xs) + Pops(k)) == xs
    decreases |xs|
  {
    var ops := Pushes(xs) + Pops(k);
    if xs == [] {
      assert ops == Pops(k) && Pushes(NumberedFrom(xs, n)) + Pops(k) == Pops(k);
      NumberedPops(k, n);
    } else {
      assert ops[1..] == Pushes(xs[1..]) + Pops(k);
      NumberedPushPop(xs[1..], n + 1, k);
      assert Pushes(NumberedFrom(xs, n)) == [PushItem(Plain(xs[0], n))] + Pushes(NumberedFrom(xs[1..], n + 1));
      Associate([PushItem(Plain(xs[0], n))], Pushes(NumberedFrom(xs[1..], n + 1)), Pops(k));
      assert xs == [xs[0]] + xs[1..];
    }
  }

  lemma {:induction false} PoppedAfterPushes(s: seq<Item>, xs: seq<Item>, ops: seq<Op>)
    ensures PoppedItems(s, Pushes(xs) + ops) == PoppedItems(PushAll(s, xs), ops)
    decreases |xs|
  {
    if xs == [] {
      assert Pushes(xs) + ops == ops;
    } else {
      assert (Pushes(xs) + ops)[1..] == Pushes(xs[1..]) + ops;
      PoppedAfterPushes(Push(s, xs[0]), xs[1..], ops);
    }
  }

  lemma {:induction false} PoppedByPops(s: seq<Item>)
    ensures PoppedItems(s, Pops(|s|)) == DrainAll(s)
    decreases |s|
  {
    if s != [] {
      assert Pops(|s|)[1..] == Pops(|s| - 1);
      PoppedByPops(Pop(s));
    }
  }

  lemma DrainIsRun(ys: seq<Item>)
    ensures var ops := Pushes(ys) + Pops(|ys|);
      PushedItems(ops) == ys && (RunsStably(ops) <==> DrainsStably(ys))
  {
    NumberedPushPop(ys, 0, |ys|);
    assert NumberedFrom(ys, 0) == Numbered(ys);
    PoppedAfterPushes([], Numbered(ys), Pops(|ys|));
    PoppedByPops(PushAll([], Numbered(ys)));
  }

  // ---------------------------------------------------------------- the condition is needed

  /** Exchanges two labels. */
  function Relabel(i: nat, j: nat): (f: Item -> Item)
    ensures KeepsKeys(f)
  {
    (x: Item) => if |x.id| == i then x.(id := Label(j)) else if |x.id| == j then x.(id := Label(i)) else x
  }

  /**
   * Two push orders that exchange two items and build the same layout cannot both drain stably if an
   * item pushed between those two ties with one of them: it leaves on the same side of it both times.
   */
  lemma Twins(xs: seq<Item>, ys: seq<Item>, i: nat, l: nat, j: nat)
    requires i < l < j < |xs| && ys == Swap(xs, i, j)
    requires PushAll([], Numbered(ys)) == Rename(Relabel(i, j), PushAll([], Numbered(xs)))
    requires KeyOf(xs[l]) == KeyOf(xs[j])
    ensures !DrainsStably(xs) || !DrainsStably(ys)
  {
    var out, back := PushThenDrain(Numbered(xs)), PushThenDrain(Numbered(ys));
    DrainAllRenamed(Relabel(i, j), PushAll([], Numbered(xs)));
    assert back == Rename(Relabel(i, j), out);
    var p := LeavesAt(xs, l);
    var q := LeavesAt(xs, j);
    assert back[p] == out[p] && back[q] == out[q].(id := Label(i));
    OppositeSides(out, back, p, q);
  }

  lemma LeavesAt(ys: seq<Item>, l: nat) returns (p: nat)
    requires l < |ys|
    ensures var out := PushThenDrain(Numbered(ys));
      p < |out| && |out[p].id| == l && KeyOf(out[p]) == KeyOf(ys[l])
  {
    var plain := Numbered(ys);
    PushThenDrainSorts(plain);
    assert plain[l] in multiset(PushThenDrain(plain));
    p :| 0 <= p < |PushThenDrain(plain)| && PushThenDrain(plain)[p] == plain[l];
  }

  lemma OppositeSides(out: seq<Item>, back: seq<Item>, p: nat, q: nat)
    requires |out| == |back| && p < |out| && q < |out|
    requires KeyOf(out[p]) == KeyOf(out[q]) && KeyOf(back[p]) == KeyOf(back[q])
    requires |back[q].id| < |back[p].id| == |out[p].id| < |out[q].id|
    ensures !FirstInFirstOut(out) || !FirstInFirstOut(back)
  {
  }

  lemma {:induction false} PushAllConcat(s: seq<Item>, xs: seq<Item>, ys: seq<Item>)
    ensures PushAll(s, xs + ys) == PushAll(PushAll(s, xs), ys)
    decreases |xs|
  {
    if xs == [] {
      assert xs + ys == ys;
    } else {
      assert (xs + ys)[1..] == xs[1..] + ys;
      PushAllConcat(Push(s, xs[0]), xs[1..], ys);
    }
  }

  /** Equal layouts after the first few pushes stay equal, whatever follows. */
  lemma SameLayout(a: seq<Item>, b: seq<Item>, rest: seq<Item>, i: nat, j: nat)
    requires i < j < |a| && b == Swap(a, i, j)
    requires PushAll([], Numbered(b)) == Rename(Relabel(i, j), PushAll([], Numbered(a)))
    ensures PushAll([], Numbered(b + rest)) == Rename(Relabel(i, j), PushAll([], Numbered(a + rest)))
  {
    var f, late := Relabel(i, j), Numbered(a + rest)[|a|..];
    assert Numbered(a + rest) == Numbered(a) + late;
    assert Numbered(b + rest) == Numbered(b) + late;
    assert Rename(f, late) == late;
    PushAllConcat([], Numbered(a), late);
    PushAllConcat([], Numbered(b), late);
    PushAllRenamed(f, PushAll([], Numbered(a)), late);
  }

  lemma TwinOrders(a: seq<Item>, b: seq<Item>, rest: seq<Item>, i: nat, l: nat, j: nat)
    requires i < l < j < |a| && b == Swap(a, i, j) && KeyOf(a[l]) == KeyOf(a[j])
    requires PushAll([], Numbered(b)) == Rename(Relabel(i, j), PushAll([], Numbered(a)))
    ensures !DrainsStably(a + rest) || !DrainsStably(b + rest)
    ensures Reordered(a + rest, b + rest)
  {
    SameLayout(a, b, rest, i, j);
    assert b + rest == Swap(a + rest, i, j);
    Twins(a + rest, b + rest, i, l, j);
  }

  lemma Layout3(s: seq<Item>)
    requires |s| == 3
    ensures PushAll([], s) == Push(Push([s[0]], s[1]), s[2])
  {
    assert s[1..][1..] == [s[2]] && s[1..][0] == s[1] && [s[2]][1..] == [];
    assert Push([], s[0]) == [s[0]];
    assert PushAll([s[0]], s[1..]) == PushAll(Push([s[0]], s[1]), [s[2]]);
    assert PushAll(Push([s[0]], s[1]), [s[2]]) == PushAll(Push(Push([s[0]], s[1]), s[2]), []);
  }

  /** `h` on top of two tied items, pushed first or pushed last. */
  lemma TieBelow(h: Item, x: Item, y: Item, rest: seq<Item>)
    requires KeyOf(x) == KeyOf(y) && Below(x, h)
    ensures !DrainsStably([h, x, y] + rest) || !DrainsStably([y, x, h] + rest)
    ensures Reordered([h, x, y] + rest, [y, x, h] + rest)
  {
    var a, b := [h, x, y], [y, x, h];
    var n, m := Numbered(a), Numbered(b);
    Layout3(n);
    Layout3(m);
    assert Push([n[0]], n[1]) == [n[0], n[1]] && Push([n[0], n[1]], n[2]) == [n[0], n[1], n[2]];
    assert Push([m[0]], m[1]) == [m[0], m[1]] && Push([m[0], m[1]], m[2]) == [m[2], m[1], m[0]];
    TwinOrders(a, b, rest, 0, 1, 2);
  }

  /** Three tied items and `w` below them, pushed second or pushed fourth. */
  lemma TieOfThree(a: Item, b: Item, c: Item, w: Item, rest: seq<Item>)
    requires KeyOf(a) == KeyOf(b) == KeyOf(c) && Below(w, a)
    ensures !DrainsStably([a, w, b, c] + rest) || !DrainsStably([a, c, b, w] + rest)
    ensures Reordered([a, w, b, c] + rest, [a, c, b, w] + rest)
  {
    var s, t := [a, w, b, c], [a, c, b, w];
    var n, m := Numbered(s), Numbered(t);
    Layout4(n);
    Layout4(m);
    assert Push([n[0]], n[1]) == n[..2] && Push(n[..2], n[2]) == n[..3];
    assert Push(n[..3], n[3]) == [n[0], n[3], n[2], n[1]];
    assert Push([m[0]], m[1]) == m[..2] && Push(m[..2], m[2]) == m[..3] && Push(m[..3], m[3]) == m;
    TwinOrders(s, t, rest, 1, 2, 3);
  }

  lemma Layout4(s: seq<Item>)
    requires |s| == 4
    ensures PushAll([], s) == Push(Push(Push([s[0]], s[1]), s[2]), s[3])
  {
    var t := PushAll([], s[..3]);
    Layout3(s[..3]);
    assert s == s[..3] + [s[3]];
    PushAllConcat([], s[..3], [s[3]]);
    PushLast(t, s[3]);
  }

  lemma PushLast(t: seq<Item>, x: Item)
    ensures PushAll(t, [x]) == Push(t, x)
  {
    assert [x][1..] == [];
    assert PushAll(Push(t, x), []) == Push(t, x);
  }

  ghost predicate AllTied(s: seq<Item>) {
    forall i, j :: 0 <= i < |s| && 0 <= j < |s| ==> KeyOf(s[i]) == KeyOf(s[j])
  }

  lemma {:induction false} TiedLayout(s: seq<Item>, xs: seq<Item>)
    requires AllTied(s + xs)
    ensures PushAll(s, xs) == s + xs
    decreases |xs|
  {
    if xs != [] {
      assert s + xs == s + [xs[0]] + xs[1..];
      assert forall i :: 0 <= i < |s + [xs[0]]| ==> (s + [xs[0]])[i] == (s + xs)[i];
      assert Push(s, xs[0]) == s + [xs[0]];
      TiedLayout(s + [xs[0]], xs[1..]);
    }
  }

  /** With nothing but ties the last item pushed leaves second. */
  lemma ManyTies(xs: seq<Item>)
    requires AllTied(xs) && |xs| >= 3
    ensures !DrainsStably(xs)
  {
    var out := PushThenDrain(Numbered(xs));
    LastOutSecond(xs);
    var q := LeavesAt(xs, 1);
    assert q > 1 && KeyOf(out[1]) == KeyOf(out[q]);
  }

  lemma LastOutSecond(xs: seq<Item>)
    requires AllTied(xs) && |xs| >= 3
    ensures var out := PushThenDrain(Numbered(xs));
      && |out| == |xs| && |out[0].id| == 0
      && |out[1].id| == |xs| - 1 && KeyOf(out[1]) == KeyOf(xs[1])
  {
    var plain, last := Numbered(xs), |xs| - 1;
    assert AllTied(plain);
    assert PushAll([], plain) == plain by {
      assert [] + plain == plain;
      TiedLayout([], plain);
    }
    LastSecond(plain);
    assert plain[0].id == Label(0) && plain[last].id == Label(last) && KeyOf(plain[last]) == KeyOf(xs[last]);
  }

  lemma LastSecond(s: seq<Item>)
    requires AllTied(s) && |s| >= 3
    ensures DrainAll(s)[0] == s[0] && DrainAll(s)[1] == s[|s| - 1]
  {
    var t := Beheaded(s);
    assert t[0] == s[|s| - 1] && t[1] == s[1] && (|t| > 2 ==> t[2] == s[2]);
    assert Best(t, 0) == 0;
    assert Pop(s) == t;
    assert DrainAll(s)[1] == DrainAll(t)[0];
  }

  lemma PickKey(xs: seq<Item>, k: Key) returns (x: Item, rest: seq<Item>)
    requires k in multiset(Keys(xs))
    ensures KeyOf(x) == k && multiset(xs) == multiset{x} + multiset(rest)
    ensures multiset(Keys(xs)) == multiset{k} + multiset(Keys(rest))
  {
    var i :| 0 <= i < |xs| && Keys(xs)[i] == k;
    x, rest := xs[i], xs[..i] + xs[i + 1..];
    Occurs(xs, i);
    KeysWithout(xs, i);
  }

  lemma PickTie(xs: seq<Item>, k: Key) returns (x: Item, y: Item, rest: seq<Item>)
    requires multiset(Keys(xs))[k] >= 2
    ensures KeyOf(x) == KeyOf(y) == k
    ensures multiset(xs) == multiset{x} + multiset{y} + multiset(rest)
    ensures multiset(Keys(xs)) == multiset{k} + multiset{k} + multiset(Keys(rest))
  {
    var r;
    x, r := PickKey(xs, k);
    y, rest := PickKey(r, k);
  }

  lemma PickTieAnd(xs: seq<Item>, k: Key, above: Key) returns (x: Item, y: Item, h: Item, rest: seq<Item>)
    requires multiset(Keys(xs))[k] >= 2 && above in multiset(Keys(xs)) && above != k
    ensures KeyOf(x) == KeyOf(y) == k && KeyOf(h) == above
    ensures multiset(xs) == multiset{x} + multiset{y} + multiset{h} + multiset(rest)
  {
    var r;
    x, y, r := PickTie(xs, k);
    assert multiset(Keys(r))[above] >= 1;
    h, rest := PickKey(r, above);
  }

  lemma UnstableOf(xs: seq<Item>, ys: seq<Item>) returns (zs: seq<Item>)
    requires Reordered(xs, ys) && (!DrainsStably(xs) || !DrainsStably(ys))
    ensures multiset(zs) == multiset(xs) && !DrainsStably(zs)
  {
    zs := if DrainsStably(xs) then ys else xs;
  }

  lemma TieBelowUnstable(xs: seq<Item>, k: Key, above: Key) returns (ys: seq<Item>)
    requires multiset(Keys(xs))[k] >= 2 && above in multiset(Keys(xs)) && KeyBelow(k, above)
    ensures Reordered(xs, ys) && !DrainsStably(ys)
  {
    var x, y, h, rest := PickTieAnd(xs, k, above);
    TieBelow(h, x, y, rest);
    ThreeItems(multiset(xs), x, y, h, rest);
    ys := UnstableOf([h, x, y] + rest, [y, x, h] + rest);
  }

  lemma TieOfThreeUnstable(xs: seq<Item>, k: Key) returns (ys: seq<Item>)
    requires multiset(Keys(xs))[k] >= 3 && Top(k, multiset(Keys(xs)))
    ensures Reordered(xs, ys) && !DrainsStably(ys)
  {
    if v :| v in multiset(Keys(xs)) && KeyBelow(v, k) {
      ys := WithOneBelow(xs, k, v);
    } else {
      ys := xs;
      forall i | 0 <= i < |xs|
        ensures KeyOf(xs[i]) == k
      {
        assert Keys(xs)[i] in multiset(Keys(xs)) && !KeyBelow(Keys(xs)[i], k) && !KeyBelow(k, Keys(xs)[i]);
      }
      AtLeast(Keys(xs), k, 3);
      ManyTies(xs);
    }
  }

  lemma {:induction false} AtLeast<T>(s: seq<T>, x: T, n: nat)
    requires multiset(s)[x] >= n
    ensures |s| >= n
    decreases |s|
  {
    if n > 0 {
      HeadItems(s);
      AtLeast(s[1..], x, n - 1);
    }
  }

  lemma WithOneBelow(xs: seq<Item>, k: Key, v: Key) returns (ys: seq<Item>)
    requires multiset(Keys(xs))[k] >= 3 && v in multiset(Keys(xs)) && KeyBelow(v, k)
    ensures Reordered(xs, ys) && !DrainsStably(ys)
  {
    var a, r := PickKey(xs, k);
    assert multiset(Keys(r))[k] >= 2 && multiset(Keys(r))[v] >= 1;
    var b, c, w, rest := PickTieAnd(r, k, v);
    TieOfThree(a, b, c, w, rest);
    ThreeItems(multiset(r), b, c, w, rest);
    FourItems(a, w, b, c, rest);
    ys := UnstableOf([a, w, b, c] + rest, [a, c, b, w] + rest);
  }

  lemma StableWhenDrained(xs: seq<Item>)
    requires StableInEveryOrder(xs)
    ensures TiesOnTopOnly(multiset(Keys(xs)))
  {
    var bag := multiset(Keys(xs));
    if !TiesOnTopOnly(bag) {
      var k :| k in bag && bag[k] >= 2 && !(bag[k] == 2 && Top(k, bag));
      if Top(k, bag) {
        var ys := TieOfThreeUnstable(xs, k);
      } else {
        var above :| above in bag && KeyBelow(k, above);
        var ys := TieBelowUnstable(xs, k, above);
      }
    }
  }

  /**
   * The exact condition of the stable order that the type's comment promises: however these items are
   * pushed, and however pops come in between, ties leave first in, first out, if and only if no key
   * is repeated but the greatest one, and that one at most twice. It makes no difference if all
   * pushes come before all pops.
   */
  lemma StableExactly(xs: seq<Item>)
    ensures StableThroughout(xs) <==> TiesOnTopOnly(multiset(Keys(xs)))
    ensures StableInEveryOrder(xs) <==> TiesOnTopOnly(multiset(Keys(xs)))
  {
    if TiesOnTopOnly(multiset(Keys(xs))) {
      forall ops | Reordered(xs, PushedItems(ops))
        ensures RunsStably(ops)
      {
        KeysPermutation(xs, PushedItems(ops));
        TiesOnTopStable(ops);
      }
    }
    if StableThroughout(xs) {
      forall ys | Reordered(xs, ys)
        ensures DrainsStably(ys)
      {
        DrainIsRun(ys);
      }
    }
    if StableInEveryOrder(xs) {
      StableWhenDrained(xs);
    }
  }

  /** Three equal keys do not leave first in, first out. */
  lemma NotStable(a: Item, b: Item, c: Item)
    requires KeyOf(a) == KeyOf(b) == KeyOf(c)
    ensures PushThenDrain([a, b, c]) == [a, c, b]
  {
    assert [] + [a, b, c] == [a, b, c];
    TiedLayout([], [a, b, c]);
    DrainOfThree(a, b, c);
  }

  /** Nor do two equal keys below a greater one. */
  lemma NotStableBelow(h: Item, a: Item, b: Item)
    requires KeyOf(a) == KeyOf(b) && Below(a, h)
    ensures PushThenDrain([h, a, b]) == [h, b, a]
  {
    Layout3([h, a, b]);
    assert Push([h], a) == [h, a] && Push([h, a], b) == [h, a, b];
    DrainOfThree(h, a, b);
  }

  lemma DrainOfThree(h: Item, a: Item, b: Item)
    requires KeyOf(a) == KeyOf(b)
    ensures DrainAll([h, a, b]) == [h, b, a]
  {
    var t := [b, a];
    assert Beheaded([h, a, b]) == t;
    assert Best(t, 0) == 0;
    assert Beheaded(t) == [a] && Pop([a]) == [];
    assert DrainAll([a]) == [a];
    assert DrainAll(t) == [b] + DrainAll([a]);
    assert DrainAll([h, a, b]) == [h] + DrainAll(t);
  }
}
