/** The binary max-heap on a flat sequence: repair, removal of the root, and what both cost. */
module Heap {
  import opened PriorityOrder

  function Parent(i: int): int
    requires i > 0
  {
    (i - 1) / 2
  }

  /** The element at `c` is not strictly preferred to its parent. */
  predicate InOrder(s: seq<Item>, c: int)
    requires 0 < c < |s|
  {
    !Below(s[Parent(c)], s[c])
  }

  ghost predicate IsHeap(s: seq<Item>) {
    forall c :: 0 < c < |s| ==> InOrder(s, c)
  }

  /** The children of `i` are not preferred to the parent of `i`, whatever sits at `i` itself. */
  ghost predicate Bridges(s: seq<Item>, i: int)
    requires 0 <= i < |s|
  {
    i > 0 ==> forall c :: i < c < |s| && Parent(c) == i ==> !Below(s[Parent(i)], s[c])
  }

  /** A heap, except that the element at `i` may be preferred to its parent. */
  ghost predicate HeapButUp(s: seq<Item>, i: int)
    requires 0 <= i < |s|
  {
    (forall c :: 0 < c < |s| && c != i ==> InOrder(s, c)) && Bridges(s, i)
  }

  /** A heap, except that the children of `i` may be preferred to it. */
  ghost predicate HeapButDown(s: seq<Item>, i: int)
    requires 0 <= i < |s|
  {
    (forall c :: 0 < c < |s| && Parent(c) != i ==> InOrder(s, c)) && Bridges(s, i)
  }

  function Swap(s: seq<Item>, i: int, j: int): (r: seq<Item>)
    requires 0 <= i < |s| && 0 <= j < |s|
    ensures |r| == |s|
  {
    s[i := s[j]][j := s[i]]
  }

  predicate Rises(s: seq<Item>, i: int)
    requires 0 <= i < |s|
  {
    i > 0 && Below(s[Parent(i)], s[i])
  }

  function SiftUp(s: seq<Item>, i: int): (r: seq<Item>)
    requires 0 <= i < |s|
    ensures |r| == |s|
    decreases i
  {
    if Rises(s, i) then SiftUp(Swap(s, i, Parent(i)), Parent(i)) else s
  }

  function AfterLeft(s: seq<Item>, i: int): (b: int)
    requires 0 <= i < |s|
  {
    if 2 * i + 1 < |s| && Below(s[i], s[2 * i + 1]) then 2 * i + 1 else i
  }

  /** The position among `i` and its children that should be the local root. */
  function Best(s: seq<Item>, i: int): (b: int)
    requires 0 <= i < |s|
    ensures b == i || (b < |s| && (b == 2 * i + 1 || b == 2 * i + 2))
  {
    var l := AfterLeft(s, i);
    if 2 * i + 2 < |s| && Below(s[l], s[2 * i + 2]) then 2 * i + 2 else l
  }

  function SiftDown(s: seq<Item>, i: int): (r: seq<Item>)
    requires 0 <= i < |s|
    ensures |r| == |s|
    decreases |s| - i
  {
    var b := Best(s, i);
    if b == i then s else SiftDown(Swap(s, i, b), b)
  }

  function Push(s: seq<Item>, x: Item): (r: seq<Item>)
    ensures |r| == |s| + 1
  {
    SiftUp(s + [x], |s|)
  }

  /** The slice after the last element has replaced the root and been cut off. */
  function Beheaded(s: seq<Item>): (r: seq<Item>)
    requires s != []
    ensures |r| == |s| - 1
  {
    s[0 := s[|s| - 1]][..|s| - 1]
  }

  function Pop(s: seq<Item>): (r: seq<Item>)
    requires s != []
    ensures |r| == |s| - 1
  {
    var t := Beheaded(s);
    if t == [] then t else SiftDown(t, 0)
  }

  // ---------------------------------------------------------------- repair

  lemma SwapKeepsItems(s: seq<Item>, i: int, j: int)
    requires 0 <= i < |s| && 0 <= j < |s|
    ensures multiset(Swap(s, i, j)) == multiset(s)
  {
  }

  lemma SwapUpStep(s: seq<Item>, i: int)
    requires 0 <= i < |s| && HeapButUp(s, i) && Rises(s, i)
    ensures HeapButUp(Swap(s, i, Parent(i)), Parent(i))
  {
    var p := Parent(i);
    var t := Swap(s, i, p);
    forall c | 0 < c < |s| && c != p
      ensures InOrder(t, c)
    {
      assert c != i ==> InOrder(s, c);
    }
    if p > 0 {
      assert InOrder(s, p);
      forall c | p < c < |s| && Parent(c) == p
        ensures !Below(t[Parent(p)], t[c])
      {
        assert c != i ==> InOrder(s, c);
      }
    }
  }

  lemma {:induction false} SiftUpRepairs(s: seq<Item>, i: int)
    requires 0 <= i < |s| && HeapButUp(s, i)
    ensures IsHeap(SiftUp(s, i))
    decreases i
  {
    if Rises(s, i) {
      SwapUpStep(s, i);
      SiftUpRepairs(Swap(s, i, Parent(i)), Parent(i));
    } else {
      assert i > 0 ==> InOrder(s, i);
    }
  }

  lemma {:induction false} SiftUpKeepsItems(s: seq<Item>, i: int)
    requires 0 <= i < |s|
    ensures multiset(SiftUp(s, i)) == multiset(s)
    decreases i
  {
    if Rises(s, i) {
      SwapKeepsItems(s, i, Parent(i));
      SiftUpKeepsItems(Swap(s, i, Parent(i)), Parent(i));
    }
  }

  lemma SwapDownStep(s: seq<Item>, i: int)
    requires 0 <= i < |s| && HeapButDown(s, i) && Best(s, i) != i
    ensures HeapButDown(Swap(s, i, Best(s, i)), Best(s, i))
  {
    var b := Best(s, i);
    var t := Swap(s, i, b);
    forall c | 0 < c < |s| && Parent(c) != b
      ensures InOrder(t, c)
    {
      if Parent(c) == i {
        assert c == 2 * i + 1 || c == 2 * i + 2;
      } else {
        assert InOrder(s, c);
      }
    }
    forall c | b < c < |s| && Parent(c) == b
      ensures !Below(t[Parent(b)], t[c])
    {
      assert InOrder(s, c);
    }
  }

  lemma {:induction false} SiftDownRepairs(s: seq<Item>, i: int)
    requires 0 <= i < |s| && HeapButDown(s, i)
    ensures IsHeap(SiftDown(s, i))
    decreases |s| - i
  {
    if Best(s, i) != i {
      SwapDownStep(s, i);
      SiftDownRepairs(Swap(s, i, Best(s, i)), Best(s, i));
    } else {
      forall c | 0 < c < |s|
        ensures InOrder(s, c)
      {
        if Parent(c) == i {
          assert c == 2 * i + 1 || c == 2 * i + 2;
        }
      }
    }
  }

  lemma {:induction false} SiftDownKeepsItems(s: seq<Item>, i: int)
    requires 0 <= i < |s|
    ensures multiset(SiftDown(s, i)) == multiset(s)
    decreases |s| - i
  {
    var b := Best(s, i);
    if b != i {
      SwapKeepsItems(s, i, b);
      SiftDownKeepsItems(Swap(s, i, b), b);
    }
  }

  // ---------------------------------------------------------------- the two operations

  lemma PushCorrect(s: seq<Item>, x: Item)
    requires IsHeap(s)
    ensures IsHeap(Push(s, x))
    ensures multiset(Push(s, x)) == multiset(s) + multiset{x}
  {
    var t := s + [x];
    forall c | 0 < c < |t| && c != |s|
      ensures InOrder(t, c)
    {
      assert InOrder(s, c);
    }
    SiftUpRepairs(t, |s|);
    SiftUpKeepsItems(t, |s|);
  }

  lemma {:induction false} RootPreferredAt(s: seq<Item>, k: int)
    requires IsHeap(s) && 0 <= k < |s|
    ensures !Below(s[0], s[k])
    decreases k
  {
    if k > 0 {
      assert InOrder(s, k);
      RootPreferredAt(s, Parent(k));
    }
  }

  /** The root has the highest level, and the earliest instant of that level. */
  lemma RootIsGreatest(s: seq<Item>, k: int)
    requires IsHeap(s) && 0 <= k < |s|
    ensures s[0].level >= s[k].level
    ensures s[0].level == s[k].level ==> s[0].createdAt <= s[k].createdAt
  {
    RootPreferredAt(s, k);
  }

  lemma RootPreferred(s: seq<Item>)
    requires IsHeap(s) && s != []
    ensures Preferred(s[0], multiset(s))
  {
    forall y | y in multiset(s)
      ensures !Below(s[0], y)
    {
      var k :| 0 <= k < |s| && s[k] == y;
      RootPreferredAt(s, k);
    }
  }

  lemma BeheadedItems(s: seq<Item>)
    requires s != []
    ensures multiset(s) == multiset(Beheaded(s)) + multiset{s[0]}
  {
    var n := |s|;
    var t := s[0 := s[n - 1]];
    assert t == t[..n - 1] + [t[n - 1]];
    assert multiset(t) == multiset(s) - multiset{s[0]} + multiset{s[n - 1]};
    assert multiset(t) == multiset(Beheaded(s)) + multiset{t[n - 1]};
  }

  lemma PopCorrect(s: seq<Item>)
    requires IsHeap(s) && s != []
    ensures IsHeap(Pop(s))
    ensures multiset(s) == multiset(Pop(s)) + multiset{s[0]}
    ensures Preferred(s[0], multiset(s))
  {
    RootPreferred(s);
    BeheadedItems(s);
    var t := Beheaded(s);
    if t != [] {
      forall c | 0 < c < |t| && Parent(c) != 0
        ensures InOrder(t, c)
      {
        assert InOrder(s, c);
      }
      SiftDownRepairs(t, 0);
      SiftDownKeepsItems(t, 0);
    }
  }

  // ---------------------------------------------------------------- cost

  function Pow2(k: nat): nat {
    if k == 0 then 1 else 2 * Pow2(k - 1)
  }

  /** floor(log2 n) */
  function Log2(n: int): (k: nat)
    requires n >= 1
    ensures Pow2(k) <= n < Pow2(k + 1)
  {
    if n == 1 then 0 else 1 + Log2(n / 2)
  }

  lemma {:induction false} Pow2Monotone(j: nat, k: nat)
    requires j <= k
    ensures Pow2(j) <= Pow2(k)
    decreases k
  {
    if j < k {
      Pow2Monotone(j, k - 1);
    }
  }

  lemma AtMostLog2(k: nat, n: int)
    requires 1 <= n && Pow2(k) <= n
    ensures k <= Log2(n)
  {
    if Log2(n) < k {
      Pow2Monotone(Log2(n) + 1, k);
    }
  }

  function UpSwaps(s: seq<Item>, i: int): nat
    requires 0 <= i < |s|
    decreases i
  {
    if Rises(s, i) then 1 + UpSwaps(Swap(s, i, Parent(i)), Parent(i)) else 0
  }

  function DownSwaps(s: seq<Item>, i: int): nat
    requires 0 <= i < |s|
    decreases |s| - i
  {
    var b := Best(s, i);
    if b == i then 0 else 1 + DownSwaps(Swap(s, i, b), b)
  }

  /** Calls of `less` in one round of the sift-down loop: one per existing child. */
  function RoundCompares(s: seq<Item>, i: int): nat
    requires 0 <= i < |s|
  {
    (if 2 * i + 1 < |s| then 1 else 0) + (if 2 * i + 2 < |s| then 1 else 0)
  }

  function DownCompares(s: seq<Item>, i: int): nat
    requires 0 <= i < |s|
    decreases |s| - i
  {
    var b := Best(s, i);
    RoundCompares(s, i) + if b == i then 0 else DownCompares(Swap(s, i, b), b)
  }

  lemma {:induction false} UpSwapsBound(s: seq<Item>, i: int)
    requires 0 <= i < |s|
    ensures Pow2(UpSwaps(s, i)) <= i + 1
    decreases i
  {
    if Rises(s, i) {
      UpSwapsBound(Swap(s, i, Parent(i)), Parent(i));
    }
  }

  /** Rounds of the sift-down loop in which `less` is called at all. */
  function ComparingRounds(s: seq<Item>, i: int): nat
    requires 0 <= i < |s|
    decreases |s| - i
  {
    var b := Best(s, i);
    if 2 * i + 1 >= |s| then 0 else if b == i then 1 else 1 + ComparingRounds(Swap(s, i, b), b)
  }

  /** Every comparing round and every swap doubles the position, which never gets past the end. */
  lemma {:induction false} DownBound(s: seq<Item>, i: int, k: nat)
    requires 0 <= i < |s| && Pow2(k) <= i + 1
    ensures DownSwaps(s, i) <= ComparingRounds(s, i)
    ensures DownCompares(s, i) <= 2 * ComparingRounds(s, i)
    ensures Pow2(k + ComparingRounds(s, i)) <= |s|
    decreases |s| - i
  {
    var b := Best(s, i);
    if b == i {
      assert Pow2(k + 1) == 2 * Pow2(k);
    } else {
      DownBound(Swap(s, i, b), b, k + 1);
    }
  }

  /** No swap without a comparison. */
  lemma {:induction false} SwapsAreCompared(s: seq<Item>, i: int)
    requires 0 <= i < |s|
    ensures DownSwaps(s, i) <= DownCompares(s, i)
    ensures 2 * i + 1 < |s| ==> DownCompares(s, i) >= 1
    ensures 2 * i + 2 < |s| ==> DownCompares(s, i) >= 2
    decreases |s| - i
  {
    var b := Best(s, i);
    if b != i {
      SwapsAreCompared(Swap(s, i, b), b);
    }
  }

  /** A push that makes the queue n long swaps at most floor(log2 n) times. */
  lemma PushCost(s: seq<Item>, x: Item)
    ensures UpSwaps(s + [x], |s|) <= Log2(|s| + 1)
  {
    UpSwapsBound(s + [x], |s|);
    AtMostLog2(UpSwaps(s + [x], |s|), |s| + 1);
  }

  /** A pop from n >= 2 items leaves |t| == n - 1 items to sift. */
  lemma DownCost(t: seq<Item>)
    requires t != []
    ensures DownSwaps(t, 0) <= Log2(|t|)
    ensures DownCompares(t, 0) <= 2 * Log2(|t|)
  {
    DownBound(t, 0, 0);
    var rounds := ComparingRounds(t, 0);
    assert Pow2(rounds) <= |t|;
    AtMostLog2(rounds, |t|);
  }

  /** The push bound is attained: an item preferred to the whole queue climbs to the root. */
  lemma PushCostTight(s: seq<Item>, x: Item)
    requires forall y :: y in s ==> Below(y, x)
    ensures UpSwaps(s + [x], |s|) == Log2(|s| + 1)
  {
    ClimbsToRoot(s + [x], |s|, x);
  }

  lemma {:induction false} ClimbsToRoot(s: seq<Item>, i: int, x: Item)
    requires 0 <= i < |s| && s[i] == x
    requires forall k :: 0 <= k < i ==> Below(s[k], x)
    ensures UpSwaps(s, i) == Log2(i + 1)
    decreases i
  {
    if i > 0 {
      ClimbsToRoot(Swap(s, i, Parent(i)), Parent(i), x);
      assert (i + 1) / 2 == Parent(i) + 1;
    }
  }
}
