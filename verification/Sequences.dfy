/** Facts about sequences and their multisets that several modules need. */
module Sequences {

  lemma HeadItems<T>(s: seq<T>)
    requires s != []
    ensures multiset(s) == multiset{s[0]} + multiset(s[1..])
  {
    assert s == [s[0]] + s[1..];
  }

  /** Where a member sits, and what is left without it. */
  lemma Extract<T>(s: seq<T>, x: T) returns (i: nat, rest: seq<T>)
    requires x in multiset(s)
    ensures i < |s| && s[i] == x && rest == s[..i] + s[i + 1..]
    ensures multiset(s) == multiset{x} + multiset(rest)
  {
    i :| 0 <= i < |s| && s[i] == x;
    rest := s[..i] + s[i + 1..];
    assert s == s[..i] + ([x] + s[i + 1..]);
  }

  /** Where the head of one sequence sits in a permutation of it; without it the two agree again. */
  lemma MatchHead<T>(s: seq<T>, t: seq<T>) returns (i: nat, rest: seq<T>)
    requires s != [] && multiset(s) == multiset(t)
    ensures i < |t| && t[i] == s[0] && rest == t[..i] + t[i + 1..]
    ensures multiset(s[1..]) == multiset(rest)
  {
    HeadItems(s);
    i, rest := Extract(t, s[0]);
    assert multiset(s[1..]) == multiset(s) - multiset{s[0]};
    assert multiset(rest) == multiset(t) - multiset{s[0]};
  }

  lemma ThreeItems<T>(bag: multiset<T>, x: T, y: T, z: T, rest: seq<T>)
    requires bag == multiset{x} + multiset{y} + multiset{z} + multiset(rest)
    ensures multiset([z, x, y] + rest) == bag
  {
    assert multiset([z, x, y]) == multiset{x} + multiset{y} + multiset{z};
  }

  lemma FourItems<T>(x: T, w: T, y: T, z: T, rest: seq<T>)
    ensures multiset([x, w, y, z] + rest) == multiset{x} + multiset([w, y, z] + rest)
  {
    var s, t := [x, w, y, z] + rest, [w, y, z] + rest;
    assert s[1..] == t && s[0] == x;
    HeadItems(s);
  }

  lemma Occurs<T>(s: seq<T>, i: nat)
    requires i < |s|
    ensures multiset(s) == multiset{s[i]} + multiset(s[..i] + s[i + 1..])
  {
    assert s == s[..i] + ([s[i]] + s[i + 1..]);
  }

  lemma OccursTwice<T>(s: seq<T>, i: nat, j: nat)
    requires i < j < |s| && s[i] == s[j]
    ensures multiset(s)[s[i]] >= 2
  {
    Occurs(s, i);
    var rest := s[..i] + s[i + 1..];
    assert rest[j - 1] == s[i];
    Occurs(rest, j - 1);
  }

  lemma Associate<T>(x: seq<T>, y: seq<T>, z: seq<T>)
    ensures x + (y + z) == x + y + z
  {
  }
}
