/** The queue object of the gateway: one growing slice, sifted in place. */
module PriorityQueue {
  import opened PriorityOrder
  import opened Heap

  /** No level in `s` is higher than that of `x`, and no instant of that level earlier. */
  predicate Greatest(x: Item, s: seq<Item>) {
    forall k :: 0 <= k < |s| ==> x.level >= s[k].level && (x.level == s[k].level ==> x.createdAt <= s[k].createdAt)
  }

  lemma RootsGreatest(s: seq<Item>)
    requires IsHeap(s) && s != []
    ensures Greatest(s[0], s)
  {
    forall k | 0 <= k < |s|
      ensures s[0].level >= s[k].level && (s[0].level == s[k].level ==> s[0].createdAt <= s[k].createdAt)
    {
      RootIsGreatest(s, k);
    }
  }

  class Queue {
    var items: seq<Item>
    // What the sift loops have cost so far.
    ghost var swaps: nat
    ghost var compares: nat

    ghost predicate Valid()
      reads this
    {
      IsHeap(items)
    }

    constructor ()
      ensures Valid() && items == [] && swaps == 0 && compares == 0
    {
      items := [];
      swaps, compares := 0, 0;
    }

    method Less(i: int, j: int) returns (b: bool)
      requires 0 <= i < |items| && 0 <= j < |items|
      modifies this`compares
      ensures items[i].level != items[j].level ==> (b <==> items[i].level < items[j].level)
      ensures items[i].level == items[j].level ==> (b <==> items[i].createdAt > items[j].createdAt)
      ensures b == Below(items[i], items[j]) && compares == old(compares) + 1
    {
      compares := compares + 1;
      if items[i].level != items[j].level {
        return items[i].level < items[j].level;
      }
      return items[i].createdAt > items[j].createdAt;
    }

    method Exchange(i: int, j: int)
      requires 0 <= i < |items| && 0 <= j < |items|
      modifies this`items, this`swaps
      ensures items == Swap(old(items), i, j) && swaps == old(swaps) + 1
    {
      items := items[i := items[j]][j := items[i]];
      swaps := swaps + 1;
    }

    method SiftUpFrom(start: int)
      requires 0 <= start < |items|
      modifies this
      ensures items == SiftUp(old(items), start)
      ensures swaps == old(swaps) + UpSwaps(old(items), start)
    {
      var i := start;
      while i > 0
        invariant 0 <= i < |items|
        invariant SiftUp(items, i) == SiftUp(old(items), start)
        invariant swaps + UpSwaps(items, i) == old(swaps) + UpSwaps(old(items), start)
      {
        var parent := (i - 1) / 2;
        var rises := Less(parent, i);
        if !rises {
          break;
        }
        Exchange(i, parent);
        i := parent;
      }
    }

    method SiftDownFrom(start: int)
      requires 0 <= start < |items|
      modifies this
      ensures items == SiftDown(old(items), start)
      ensures swaps == old(swaps) + DownSwaps(old(items), start)
      ensures compares == old(compares) + DownCompares(old(items), start)
    {
      var i := start;
      var n := |items|;
      while true
        invariant 0 <= i < |items| == n
        invariant SiftDown(items, i) == SiftDown(old(items), start)
        invariant swaps + DownSwaps(items, i) == old(swaps) + DownSwaps(old(items), start)
        invariant compares + DownCompares(items, i) == old(compares) + DownCompares(old(items), start)
        decreases n - i
      {
        var best := i;
        var left, right := 2 * i + 1, 2 * i + 2;
        if left < n {
          var worse := Less(best, left);
          if worse {
            best := left;
          }
        }
        assert best == AfterLeft(items, i);
        if right < n {
          var worse := Less(best, right);
          if worse {
            best := right;
          }
        }
        assert best == Best(items, i);
        if best == i {
          break;
        }
        Exchange(i, best);
        i := best;
      }
    }

    method Push(item: Item)
      requires Valid()
      modifies this
      ensures Valid()
      ensures items == Heap.Push(old(items), item)
      ensures multiset(items) == multiset(old(items)) + multiset{item}
      ensures swaps <= old(swaps) + Log2(|items|)
    {
      PushCorrect(items, item);
      PushCost(items, item);
      items := items + [item];
      SiftUpFrom(|items| - 1);
    }

    method PopRoot() returns (item: Item)
      requires Valid() && items != []
      modifies this
      ensures Valid()
      ensures item == old(items)[0] && Preferred(item, multiset(old(items)))
      ensures Greatest(item, old(items))
      ensures items == Heap.Pop(old(items))
      ensures multiset(old(items)) == multiset(items) + multiset{item}
      ensures |old(items)| >= 2 ==> swaps <= old(swaps) + Log2(|items|)
      ensures |old(items)| >= 2 ==> compares <= old(compares) + 2 * Log2(|items|)
    {
      PopCorrect(items);
      RootsGreatest(items);
      var n := |items|;
      item := items[0];
      items := items[0 := items[n - 1]];
      items := items[..n - 1];
      if |items| > 0 {
        DownCost(items);
        SiftDownFrom(0);
      }
    }

    method TryPop() returns (item: Item, ok: bool)
      requires Valid()
      modifies this
      ensures Valid()
      ensures ok <==> old(items) != []
      ensures ok ==> item == old(items)[0] && Preferred(item, multiset(old(items))) && items == Heap.Pop(old(items))
      ensures ok ==> Greatest(item, old(items))
      ensures ok ==> multiset(old(items)) == multiset(items) + multiset{item}
      ensures !ok ==> item == Item("", 0, [], 0) && unchanged(this)
    {
      if |items| == 0 {
        return ZERO_ITEM, false;
      }
      item := PopRoot();
      ok := true;
    }

    method Len() returns (n: int)
      ensures n == |items|
    {
      n := |items|;
    }
  }

  /** The zero value returned beside `false`. */
  const ZERO_ITEM := Item("", 0, [], 0)
}
