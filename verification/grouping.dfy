/** Lists of groups and what they hold altogether: the bookkeeping both clusterings share. */
module Grouping {
  import opened Common

  /** All members of all groups, with multiplicity. */
  function Bag<T>(groups: seq<seq<T>>): multiset<T> {
    if groups == [] then multiset{} else Bag(groups[..|groups| - 1]) + multiset(groups[|groups| - 1])
  }

  lemma BagAppend<T>(groups: seq<seq<T>>, g: seq<T>)
    ensures Bag(groups + [g]) == Bag(groups) + multiset(g)
  {
    assert (groups + [g])[..|groups|] == groups;
  }

  lemma {:induction false} BagUpdate<T>(groups: seq<seq<T>>, i: nat, more: seq<T>)
    requires i < |groups|
    ensures Bag(groups[i := groups[i] + more]) == Bag(groups) + multiset(more)
  {
    var n := |groups| - 1;
    var updated := groups[i := groups[i] + more];
    if i < n {
      assert updated[..n] == groups[..n][i := groups[i] + more];
      BagUpdate(groups[..n], i, more);
    } else {
      assert updated[..n] == groups[..n];
    }
  }

  lemma {:induction false} BagRemove<T>(groups: seq<seq<T>>, i: nat)
    requires i < |groups|
    ensures Bag(groups) == Bag(groups[..i] + groups[i + 1..]) + multiset(groups[i])
  {
    var n := |groups| - 1;
    if i < n {
      assert groups[..i] + groups[i + 1..] == (groups[..n][..i] + groups[..n][i + 1..]) + [groups[n]];
      BagRemove(groups[..n], i);
      BagAppend(groups[..n][..i] + groups[..n][i + 1..], groups[n]);
    } else {
      assert groups[..i] + groups[i + 1..] == groups[..n];
    }
  }

  /** Pouring group j into group i and dropping j loses nothing. */
  lemma BagMerge<T>(groups: seq<seq<T>>, i: nat, j: nat)
    requires i < j < |groups|
    ensures Bag(groups[i := groups[i] + groups[j]][..j] + groups[i := groups[i] + groups[j]][j + 1..]) == Bag(groups)
  {
    var poured := groups[i := groups[i] + groups[j]];
    BagUpdate(groups, i, groups[j]);
    BagRemove(poured, j);
    Cancel(Bag(poured[..j] + poured[j + 1..]), Bag(groups), multiset(groups[j]));
  }

  lemma Cancel<T>(a: multiset<T>, b: multiset<T>, m: multiset<T>)
    requires a + m == b + m
    ensures a == b
  {
    forall x ensures a[x] == b[x] {
      assert (a + m)[x] == (b + m)[x];
    }
  }

  ghost predicate NoneTwice<T(!new)>(groups: seq<seq<T>>) {
    forall x :: Bag(groups)[x] <= 1
  }

  lemma MembersInBag<T>(groups: seq<seq<T>>, i: nat, x: T)
    requires i < |groups|
    ensures Bag(groups)[x] >= multiset(groups[i])[x]
  {
    BagRemove(groups, i);
  }

  lemma {:induction false} SomeGroup<T>(groups: seq<seq<T>>, x: T) returns (i: nat)
    requires x in Bag(groups)
    ensures i < |groups| && x in groups[i]
  {
    var n := |groups| - 1;
    if x in multiset(groups[n]) {
      i := n;
    } else {
      i := SomeGroup(groups[..n], x);
    }
  }

  /** When nothing is held twice, two different groups share no member. */
  lemma GroupsDisjoint<T(!new)>(groups: seq<seq<T>>, i: nat, j: nat, x: T)
    requires NoneTwice(groups) && i < j < |groups| && x in groups[i]
    ensures x !in groups[j]
  {
    BagRemove(groups, i);
    var rest := groups[..i] + groups[i + 1..];
    assert rest[j - 1] == groups[j];
    MembersInBag(rest, j - 1, x);
    assert x in multiset(groups[i]);
    assert Bag(groups)[x] >= 1 + multiset(groups[j])[x];
  }

  lemma {:induction false} CountedOnce<T>(s: seq<T>)
    requires forall x :: multiset(s)[x] <= 1
    ensures Distinct(s)
  {
    if s != [] {
      var front, last := s[..|s| - 1], s[|s| - 1];
      assert s == front + [last];
      forall x ensures multiset(front)[x] <= 1 {
        assert multiset(s)[x] == multiset(front)[x] + multiset{last}[x];
      }
      CountedOnce(front);
      assert multiset(s)[last] == multiset(front)[last] + multiset{last}[last];
      assert last !in front;
    }
  }

  lemma GroupDistinct<T(!new)>(groups: seq<seq<T>>, i: nat)
    requires NoneTwice(groups) && i < |groups|
    ensures Distinct(groups[i])
  {
    forall x ensures multiset(groups[i])[x] <= 1 {
      MembersInBag(groups, i, x);
    }
    CountedOnce(groups[i]);
  }

  lemma BagOfDistinct<T(!new)>(groups: seq<seq<T>>, s: seq<T>)
    requires Distinct(s) && Bag(groups) == multiset(s)
    ensures NoneTwice(groups)
  {
    forall x ensures Bag(groups)[x] <= 1 {
      DistinctCount(s, x);
    }
  }
}
