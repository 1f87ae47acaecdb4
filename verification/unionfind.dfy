/** The path-halving union-find that claim dedup (assoc/dedup.py) and document families
    (assoc/authority.py) both run, and the equivalence closure it computes. */
module UnionFinds {
  import opened Common

  // ----- the smallest equivalence containing a list of pairs -----------------------------

  ghost predicate Linked<T>(links: seq<(T, T)>, a: T, b: T) {
    (a, b) in links || (b, a) in links
  }

  ghost predicate IsChain<T>(links: seq<(T, T)>, chain: seq<T>) {
    && |chain| > 0
    && forall i :: 0 <= i < |chain| - 1 ==> Linked(links, chain[i], chain[i + 1])
  }

  /** Some chain of links, taken in either direction, leads from a to b. */
  ghost predicate Connected<T(!new)>(links: seq<(T, T)>, a: T, b: T) {
    exists chain: seq<T> :: IsChain(links, chain) && chain[0] == a && chain[|chain| - 1] == b
  }

  ghost predicate IsEquivalence<T(!new)>(related: (T, T) -> bool) {
    && (forall x :: related(x, x))
    && (forall x, y :: related(x, y) ==> related(y, x))
    && (forall x, y, z :: related(x, y) && related(y, z) ==> related(x, z))
  }

  lemma ConnectedReflexive<T(!new)>(links: seq<(T, T)>, a: T)
    ensures Connected(links, a, a)
  {
    assert IsChain(links, [a]);
  }

  lemma ConnectedLink<T(!new)>(links: seq<(T, T)>, a: T, b: T)
    requires Linked(links, a, b)
    ensures Connected(links, a, b)
  {
    assert IsChain(links, [a, b]);
  }

  lemma {:induction false} ConnectedSymmetric<T(!new)>(links: seq<(T, T)>, a: T, b: T)
    requires Connected(links, a, b)
    ensures Connected(links, b, a)
  {
    var chain :| IsChain(links, chain) && chain[0] == a && chain[|chain| - 1] == b;
    var n := |chain|;
    var back := seq(n, i requires 0 <= i < n => chain[n - 1 - i]);
    forall i | 0 <= i < n - 1 ensures Linked(links, back[i], back[i + 1]) {
      assert Linked(links, chain[n - 2 - i], chain[n - 2 - i + 1]);
    }
    assert IsChain(links, back);
  }

  lemma ConnectedTransitive<T(!new)>(links: seq<(T, T)>, a: T, b: T, c: T)
    requires Connected(links, a, b) && Connected(links, b, c)
    ensures Connected(links, a, c)
  {
    var p :| IsChain(links, p) && p[0] == a && p[|p| - 1] == b;
    var q :| IsChain(links, q) && q[0] == b && q[|q| - 1] == c;
    var r := p + q[1..];
    forall i | 0 <= i < |r| - 1 ensures Linked(links, r[i], r[i + 1]) {
      if i < |p| - 1 {
        assert Linked(links, p[i], p[i + 1]);
      } else {
        assert Linked(links, q[i - |p| + 1], q[i - |p| + 2]);
      }
    }
    assert IsChain(links, r);
  }

  lemma ConnectedMonotone<T(!new)>(links: seq<(T, T)>, more: seq<(T, T)>, a: T, b: T)
    requires forall e :: e in links ==> e in more
    requires Connected(links, a, b)
    ensures Connected(more, a, b)
  {
    var chain :| IsChain(links, chain) && chain[0] == a && chain[|chain| - 1] == b;
    forall i | 0 <= i < |chain| - 1 ensures Linked(more, chain[i], chain[i + 1]) {
      assert Linked(links, chain[i], chain[i + 1]);
    }
    assert IsChain(more, chain);
  }

  /** Minimality: every equivalence that relates the linked pairs relates all connected ones. */
  lemma ConnectedIsSmallest<T(!new)>(links: seq<(T, T)>, related: (T, T) -> bool, a: T, b: T)
    requires IsEquivalence(related)
    requires forall e :: e in links ==> related(e.0, e.1)
    requires Connected(links, a, b)
    ensures related(a, b)
  {
    var chain :| IsChain(links, chain) && chain[0] == a && chain[|chain| - 1] == b;
    ChainRelates(links, related, chain);
  }

  lemma {:induction false} ChainRelates<T(!new)>(links: seq<(T, T)>, related: (T, T) -> bool, chain: seq<T>)
    requires IsEquivalence(related)
    requires forall e :: e in links ==> related(e.0, e.1)
    requires IsChain(links, chain)
    ensures related(chain[0], chain[|chain| - 1])
  {
    var n := |chain|;
    if n > 1 {
      assert IsChain(links, chain[..n - 1]);
      ChainRelates(links, related, chain[..n - 1]);
      assert Linked(links, chain[n - 2], chain[n - 2 + 1]);
      if (chain[n - 1], chain[n - 2]) in links {
        assert related(chain[n - 1], chain[n - 2]);
      } else {
        assert related(chain[n - 2], chain[n - 1]);
      }
    }
  }

  /** Links that are themselves connected by others connect nothing new. */
  lemma ConnectedSubsumes<T(!new)>(links: seq<(T, T)>, others: seq<(T, T)>, a: T, b: T)
    requires forall e :: e in links ==> Connected(others, e.0, e.1)
    requires Connected(links, a, b)
    ensures Connected(others, a, b)
  {
    var related := (u: T, v: T) => Connected(others, u, v);
    forall x ensures related(x, x) {
      ConnectedReflexive(others, x);
    }
    forall x, y | related(x, y) ensures related(y, x) {
      ConnectedSymmetric(others, x, y);
    }
    forall x, y, z | related(x, y) && related(y, z) ensures related(x, z) {
      ConnectedTransitive(others, x, y, z);
    }
    ConnectedIsSmallest(links, related, a, b);
  }

  // ----- what find and union mean for the representatives ---------------------------------

  /** Every element seen so far, mapped to the representative of its class. */
  type Reps<T> = map<T, T>

  function Seen<T>(rep: Reps<T>, x: T): Reps<T> {
    if x in rep then rep else rep[x := x]
  }

  function Absorbed<T>(rep: Reps<T>, ra: T, rb: T): Reps<T> {
    map x | x in rep :: if rep[x] == rb then ra else rep[x]
  }

  /** The class of b is absorbed into the class of a, whose representative survives. */
  function Joined<T>(rep: Reps<T>, a: T, b: T): Reps<T> {
    var both := Seen(Seen(rep, a), b);
    Absorbed(both, both[a], both[b])
  }

  lemma AbsorbSelf<T>(rep: Reps<T>, r: T)
    ensures Absorbed(rep, r, r) == rep
  {
  }

  function JoinedAll<T>(links: seq<(T, T)>): Reps<T> {
    if links == [] then map[]
    else
      var last := links[|links| - 1];
      Joined(JoinedAll(links[..|links| - 1]), last.0, last.1)
  }

  lemma {:induction false} JoinedAllKeys<T>(links: seq<(T, T)>, x: T)
    ensures x in JoinedAll(links) <==> Mentioned(links, x)
    ensures x in JoinedAll(links) ==>
              JoinedAll(links)[x] in JoinedAll(links) && JoinedAll(links)[JoinedAll(links)[x]] == JoinedAll(links)[x]
  {
    if links != [] {
      var n := |links| - 1;
      var a, b := links[n].0, links[n].1;
      var rep := JoinedAll(links[..n]);
      JoinedAllKeys(links[..n], x);
      JoinedAllKeys(links[..n], a);
      JoinedAllKeys(links[..n], b);
      MentionedPrefix(links, x);
      if x in rep {
        JoinedAllKeys(links[..n], rep[x]);
      }
    }
  }

  ghost predicate Mentioned<T>(links: seq<(T, T)>, x: T) {
    exists i :: 0 <= i < |links| && (links[i].0 == x || links[i].1 == x)
  }

  lemma MentionedPrefix<T>(links: seq<(T, T)>, x: T)
    requires links != []
    ensures var last := links[|links| - 1];
            Mentioned(links, x) <==> Mentioned(links[..|links| - 1], x) || last.0 == x || last.1 == x
  {
    var front := links[..|links| - 1];
    assert forall i :: 0 <= i < |front| ==> front[i] == links[i];
    if Mentioned(front, x) {
      var i :| 0 <= i < |front| && (front[i].0 == x || front[i].1 == x);
      assert links[i].0 == x || links[i].1 == x;
    }
  }

  /** An element no link mentions is connected to nothing but itself. */
  lemma UnseenAlone<T(!new)>(links: seq<(T, T)>, x: T, y: T)
    requires x !in JoinedAll(links) && Connected(links, x, y)
    ensures x == y
  {
    var chain :| IsChain(links, chain) && chain[0] == x && chain[|chain| - 1] == y;
    if |chain| > 1 {
      assert Linked(links, chain[0], chain[0 + 1]);
      var e := if (chain[0], chain[1]) in links then (chain[0], chain[1]) else (chain[1], chain[0]);
      var i :| 0 <= i < |links| && links[i] == e;
      JoinedAllKeys(links, x);
      assert false;
    }
  }

  /** Joining a list of links, one after another, computes exactly the smallest equivalence
      that contains them. */
  lemma {:induction false} ClosureTheorem<T(!new)>(links: seq<(T, T)>, x: T, y: T)
    requires x in JoinedAll(links) && y in JoinedAll(links)
    ensures JoinedAll(links)[x] == JoinedAll(links)[y] <==> Connected(links, x, y)
    decreases |links|, 0
  {
    var n := |links| - 1;
    var before := links[..n];
    var a, b := links[n].0, links[n].1;
    assert links == before + [(a, b)];
    if JoinedAll(links)[x] == JoinedAll(links)[y] {
      JoinedImpliesConnected(before, a, b, x, y);
    }
    if Connected(links, x, y) {
      var rep := JoinedAll(links);
      var related := (u: T, v: T) => if u in rep && v in rep then rep[u] == rep[v] else u == v;
      forall e | e in links ensures related(e.0, e.1) {
        LinkJoined(links, e);
      }
      ConnectedIsSmallest(links, related, x, y);
    }
  }

  lemma {:induction false} LinkJoined<T>(links: seq<(T, T)>, e: (T, T))
    requires e in links
    ensures e.0 in JoinedAll(links) && e.1 in JoinedAll(links)
    ensures JoinedAll(links)[e.0] == JoinedAll(links)[e.1]
  {
    var n := |links| - 1;
    if e != links[n] {
      assert links == links[..n] + [links[n]];
      LinkJoined(links[..n], e);
    }
  }

  lemma {:induction false} SameSeenClass<T(!new)>(links: seq<(T, T)>, a: T, b: T, x: T, y: T)
    requires var both := Seen(Seen(JoinedAll(links), a), b); x in both && y in both && both[x] == both[y]
    ensures Connected(links, x, y)
    decreases |links|, 1
  {
    var rep := JoinedAll(links);
    JoinedAllKeys(links, x);
    JoinedAllKeys(links, y);
    if x in rep && y in rep {
      ClosureTheorem(links, x, y);
    } else {
      assert x == y;
      ConnectedReflexive(links, x);
    }
  }

  lemma {:induction false} JoinedImpliesConnected<T(!new)>(links: seq<(T, T)>, a: T, b: T, x: T, y: T)
    requires var rep := Joined(JoinedAll(links), a, b); x in rep && y in rep && rep[x] == rep[y]
    ensures Connected(links + [(a, b)], x, y)
    decreases |links|, 2
  {
    var more := links + [(a, b)];
    var both := Seen(Seen(JoinedAll(links), a), b);
    if both[x] == both[y] {
      SameSeenClass(links, a, b, x, y);
      ConnectedMonotone(links, more, x, y);
    } else {
      var (u, v) := if both[x] == both[b] then (x, y) else (y, x);
      SameSeenClass(links, a, b, u, b);
      SameSeenClass(links, a, b, a, v);
      ConnectedMonotone(links, more, u, b);
      ConnectedMonotone(links, more, a, v);
      ConnectedLink(more, b, a);
      ConnectedTransitive(more, u, b, a);
      ConnectedTransitive(more, u, a, v);
      if u == y {
        ConnectedSymmetric(more, y, x);
      }
    }
  }

  // ----- the pointer forest ---------------------------------------------------------------

  /** A pointer stays inside the forest, leads towards the representative, and strictly raises
      the rank, so every pointer path ends at a root. */
  ghost predicate GoodNode<T>(p: map<T, T>, rep: Reps<T>, rank: map<T, nat>, top: nat, x: T)
    requires x in p && p.Keys == rep.Keys == rank.Keys
  {
    && p[x] in p
    && rank[x] <= top
    && rep[x] in p
    && p[rep[x]] == rep[x]
    && if p[x] == x then rep[x] == x else rep[x] == rep[p[x]] && rank[x] < rank[p[x]]
  }

  ghost predicate Forest<T>(p: map<T, T>, rep: Reps<T>, rank: map<T, nat>, top: nat) {
    && p.Keys == rep.Keys == rank.Keys
    && (forall x {:trigger GoodNode(p, rep, rank, top, x)} :: x in p ==> GoodNode(p, rep, rank, top, x))
  }

  lemma HalvingKeepsForest<T>(p: map<T, T>, rep: Reps<T>, rank: map<T, nat>, top: nat, x: T)
    requires Forest(p, rep, rank, top) && x in p && p[x] != x
    ensures p[x] in p && Forest(p[x := p[p[x]]], rep, rank, top)
    ensures p[p[x]] in p && rep[p[p[x]]] == rep[x] && rank[x] < rank[p[p[x]]] <= top
  {
    assert GoodNode(p, rep, rank, top, x);
    assert GoodNode(p, rep, rank, top, p[x]);
    assert GoodNode(p, rep, rank, top, p[p[x]]);
    var q := p[x := p[p[x]]];
    forall w | w in q ensures GoodNode(q, rep, rank, top, w) {
      assert GoodNode(p, rep, rank, top, w);
    }
  }

  lemma SingletonKeepsForest<T>(p: map<T, T>, rep: Reps<T>, rank: map<T, nat>, top: nat, x: T)
    requires Forest(p, rep, rank, top) && x !in p
    ensures Forest(p[x := x], rep[x := x], rank[x := 0], top)
  {
    var q, rep', rank' := p[x := x], rep[x := x], rank[x := 0];
    forall w | w in q ensures GoodNode(q, rep', rank', top, w) {
      assert w in p ==> GoodNode(p, rep, rank, top, w);
    }
  }

  lemma LinkingKeepsForest<T>(p: map<T, T>, rep: Reps<T>, rank: map<T, nat>, top: nat, ra: T, rb: T)
    requires Forest(p, rep, rank, top) && ra in p && rb in p && ra != rb && p[ra] == ra && p[rb] == rb
    ensures Forest(p[rb := ra], Absorbed(rep, ra, rb), rank[ra := top + 1], top + 1)
  {
    var q, rep', rank' := p[rb := ra], Absorbed(rep, ra, rb), rank[ra := top + 1];
    assert GoodNode(p, rep, rank, top, ra);
    assert GoodNode(p, rep, rank, top, rb);
    forall w | w in q ensures GoodNode(q, rep', rank', top + 1, w) {
      assert GoodNode(p, rep, rank, top, w);
      assert GoodNode(p, rep, rank, top, p[w]);
      LinkedNode(p, rep, rank, top, ra, rb, w);
    }
  }

  lemma LinkedNode<T>(p: map<T, T>, rep: Reps<T>, rank: map<T, nat>, top: nat, ra: T, rb: T, w: T)
    requires p.Keys == rep.Keys == rank.Keys && ra in p && rb in p && ra != rb && p[ra] == ra && p[rb] == rb
    requires GoodNode(p, rep, rank, top, ra) && GoodNode(p, rep, rank, top, rb)
    requires w in p && GoodNode(p, rep, rank, top, w) && GoodNode(p, rep, rank, top, p[w])
    ensures GoodNode(p[rb := ra], Absorbed(rep, ra, rb), rank[ra := top + 1], top + 1, w)
  {
  }

  class UnionFind<T(==)> {
    var p: map<T, T>
    ghost var rep: Reps<T>         // the representative every element reaches
    ghost var rank: map<T, nat>
    ghost var top: nat

    ghost predicate Valid()
      reads this
    {
      Forest(p, rep, rank, top)
    }

    constructor ()
      ensures Valid() && rep == map[]
    {
      p, rep, rank, top := map[], map[], map[], 0;
    }

    /** Returns the representative of x. The forest may be shortened on the way, but no
        element changes class. */
    method Find(x: T) returns (r: T)
      requires Valid()
      modifies this
      ensures Valid() && rep == Seen(old(rep), x)
      ensures r in p && r == rep[x] && p[r] == r
    {
      if x !in p {
        SingletonKeepsForest(p, rep, rank, top, x);
        p, rep, rank := p[x := x], rep[x := x], rank[x := 0];
      }
      r := x;
      while p[r] != r
        invariant Valid() && rep == Seen(old(rep), x)
        invariant r in p && x in p && rep[r] == rep[x]
        decreases top - rank[r]
      {
        HalvingKeepsForest(p, rep, rank, top, r);
        assert GoodNode(p, rep, rank, top, r);
        p := p[r := p[p[r]]];
        r := p[r];
      }
      assert GoodNode(p, rep, rank, top, r);
    }

    method Union(a: T, b: T)
      requires Valid()
      modifies this
      ensures Valid() && rep == Joined(old(rep), a, b)
    {
      var ra := Find(a);
      var rb := Find(b);
      assert GoodNode(p, rep, rank, top, a);
      AbsorbSelf(rep, ra);
      if ra != rb {
        LinkingKeepsForest(p, rep, rank, top, ra, rb);
        p := p[rb := ra];
        rep, rank, top := Absorbed(rep, ra, rb), rank[ra := top + 1], top + 1;
      }
    }
  }

  /** Runs union over the links, in order: afterwards two elements have one representative
      exactly when the links connect them (`ClosureTheorem`). */
  method UnionAll<T(==)>(links: seq<(T, T)>) returns (uf: UnionFind<T>)
    ensures fresh(uf) && uf.Valid() && uf.rep == JoinedAll(links)
  {
    uf := new UnionFind<T>();
    for i := 0 to |links|
      invariant uf.Valid() && fresh(uf)
      invariant uf.rep == JoinedAll(links[..i])
    {
      uf.Union(links[i].0, links[i].1);
      assert links[..i + 1][..i] == links[..i];
    }
    assert links[..|links|] == links;
  }
}
