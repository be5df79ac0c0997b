/** Queue items and the order that decides which of two items leaves first. */
module PriorityOrder {
  import opened Sequences

  newtype Byte = b: int | 0 <= b < 256

  type Bytes = seq<Byte>

  /** A queued notification; `createdAt` is an instant in nanoseconds. */
  datatype Item = Item(id: string, level: int, payload: Bytes, createdAt: int)

  /** The part of an item that the order looks at. */
  datatype Key = Key(level: int, createdAt: int)

  function KeyOf(x: Item): Key {
    Key(x.level, x.createdAt)
  }

  /** Key `a` leaves strictly after key `b`: a smaller level, or the same level and a later instant. */
  predicate KeyBelow(a: Key, b: Key) {
    if a.level != b.level then a.level < b.level else a.createdAt > b.createdAt
  }

  predicate Below(a: Item, b: Item) {
    KeyBelow(KeyOf(a), KeyOf(b))
  }

  /** No item of `bag` is strictly preferred to `x`. */
  ghost predicate Preferred(x: Item, bag: multiset<Item>) {
    forall y :: y in bag ==> !Below(x, y)
  }

  /** In plain numbers: `x` has a level at least as high as anything in `bag`, and on equal levels is not later. */
  lemma PreferredMeans(x: Item, bag: multiset<Item>)
    ensures Preferred(x, bag) <==>
      forall y :: y in bag ==> x.level >= y.level && (x.level == y.level ==> x.createdAt <= y.createdAt)
  {
    if Preferred(x, bag) {
      forall y | y in bag
        ensures x.level >= y.level && (x.level == y.level ==> x.createdAt <= y.createdAt)
      {
        assert !Below(x, y);
      }
    } else {
      var y :| y in bag && Below(x, y);
      assert x.level < y.level || (x.level == y.level && x.createdAt > y.createdAt);
    }
  }

  /** In plain numbers: along the sequence no level rises, and at one level no instant falls. */
  lemma LeavesInOrderMeans(s: seq<Item>)
    ensures LeavesInOrder(s) <==>
      forall i, j :: 0 <= i < j < |s| ==>
        s[i].level >= s[j].level && (s[i].level == s[j].level ==> s[i].createdAt <= s[j].createdAt)
  {
    if LeavesInOrder(s) {
      forall i, j | 0 <= i < j < |s|
        ensures s[i].level >= s[j].level && (s[i].level == s[j].level ==> s[i].createdAt <= s[j].createdAt)
      {
        assert !Below(s[i], s[j]);
      }
    } else {
      var i, j :| 0 <= i < j < |s| && Below(s[i], s[j]);
      assert s[i].level < s[j].level || (s[i].level == s[j].level && s[i].createdAt > s[j].createdAt);
    }
  }

  /** Items leave in this order: nobody is strictly preferred to somebody before it. */
  ghost predicate LeavesInOrder(s: seq<Item>) {
    forall i, j :: 0 <= i < j < |s| ==> !Below(s[i], s[j])
  }

  lemma HeadFirst(x: Item, t: seq<Item>)
    requires LeavesInOrder(t) && Preferred(x, multiset(t))
    ensures LeavesInOrder([x] + t)
  {
    forall j | 0 <= j < |t|
      ensures !Below(x, t[j])
    {
      assert t[j] in multiset(t);
    }
  }

  /** How many of the items of `s` are not strictly after `x`. */
  function NotBelow(s: seq<Item>, x: Item): nat {
    if s == [] then 0 else (if Below(s[0], x) then 0 else 1) + NotBelow(s[1..], x)
  }

  lemma {:induction false} NotBelowConcat(s: seq<Item>, t: seq<Item>, x: Item)
    ensures NotBelow(s + t, x) == NotBelow(s, x) + NotBelow(t, x)
  {
    if s == [] {
      assert s + t == t;
    } else {
      assert (s + t)[1..] == s[1..] + t;
      NotBelowConcat(s[1..], t, x);
    }
  }

  lemma NotBelowWithout(t: seq<Item>, i: nat, x: Item)
    requires i < |t|
    ensures NotBelow(t, x) == NotBelow(t[..i] + t[i + 1..], x) + if Below(t[i], x) then 0 else 1
  {
    var tail := [t[i]] + t[i + 1..];
    assert t == t[..i] + tail;
    assert tail[1..] == t[i + 1..];
    NotBelowConcat(t[..i], tail, x);
    NotBelowConcat(t[..i], t[i + 1..], x);
  }

  /** The count depends on the multiset of items only, so it can be moved between heap layouts. */
  lemma {:induction false} NotBelowPermutation(s: seq<Item>, t: seq<Item>, x: Item)
    requires multiset(s) == multiset(t)
    ensures NotBelow(s, x) == NotBelow(t, x)
  {
    if s == [] {
      assert |multiset(t)| == |t|;
    } else {
      var i, rest := MatchHead(s, t);
      NotBelowPermutation(s[1..], rest, x);
      NotBelowWithout(t, i, x);
    }
  }
}
