/** Small shared vocabulary: ordered collections, sums of reals, and the stable sort the
    source gets from Python's `sorted`. */
module Common {

  datatype Option<+T> = None | Some(value: T)

  /** No value occurs twice. */
  ghost predicate Distinct<T>(s: seq<T>) {
    forall i, j :: 0 <= i < j < |s| ==> s[i] != s[j]
  }

  function Elems<T(!new)>(s: seq<T>): (r: set<T>)
    ensures forall x :: x in r <==> x in s
  {
    set x | x in s
  }

  function Max(a: int, b: int): int {
    if a < b then b else a
  }

  function Min(a: int, b: int): int {
    if a < b then a else b
  }

  lemma DistinctSnoc<T>(s: seq<T>, x: T)
    requires Distinct(s) && x !in s
    ensures Distinct(s + [x])
  {
  }

  lemma {:induction false} DistinctCount<T>(s: seq<T>, x: T)
    requires Distinct(s)
    ensures multiset(s)[x] == if x in s then 1 else 0
  {
    if s != [] {
      var front, last := s[..|s| - 1], s[|s| - 1];
      assert s == front + [last];
      DistinctCount(front, x);
      assert last !in front;
    }
  }

  lemma DistinctMultiset<T>(s: seq<T>, t: seq<T>)
    requires Distinct(s) && multiset(s) == multiset(t)
    ensures Distinct(t)
  {
    forall i, j | 0 <= i < j < |t| ensures t[i] != t[j] {
      if t[i] == t[j] {
        assert t == t[..j] + t[j..];
        assert t[i] in t[..j] && t[i] in t[j..];
        assert multiset(t) == multiset(t[..j]) + multiset(t[j..]);
        DistinctCount(s, t[i]);
        assert false;
      }
    }
  }

  // ----- counting occurrences ---------------------------------------------------------------

  function Occurs<T(==)>(s: seq<T>, x: T): nat {
    if s == [] then 0 else Occurs(s[..|s| - 1], x) + if s[|s| - 1] == x then 1 else 0
  }

  lemma OccursSnoc<T>(s: seq<T>, y: T, x: T)
    ensures Occurs(s + [y], x) == Occurs(s, x) + if y == x then 1 else 0
  {
    assert (s + [y])[..|s|] == s;
  }

  lemma {:induction false} OccursConcat<T>(a: seq<T>, b: seq<T>, x: T)
    ensures Occurs(a + b, x) == Occurs(a, x) + Occurs(b, x)
  {
    if b == [] {
      assert a + b == a;
    } else {
      assert (a + b)[..|a + b| - 1] == a + b[..|b| - 1];
      OccursConcat(a, b[..|b| - 1], x);
    }
  }

  lemma {:induction false} OccursMultiset<T>(s: seq<T>, x: T)
    ensures multiset(s)[x] == Occurs(s, x)
    ensures x in s <==> Occurs(s, x) > 0
  {
    if s != [] {
      var front, last := s[..|s| - 1], s[|s| - 1];
      assert s == front + [last];
      OccursMultiset(front, x);
    }
  }

  ghost predicate OccurAlike<T(!new)>(s: seq<T>, t: seq<T>) {
    forall x :: Occurs(s, x) == Occurs(t, x)
  }

  lemma SameOccurs<T(!new)>(s: seq<T>, t: seq<T>)
    ensures multiset(s) == multiset(t) <==> OccurAlike(s, t)
  {
    forall x ensures multiset(s)[x] == Occurs(s, x) && multiset(t)[x] == Occurs(t, x) {
      OccursMultiset(s, x);
      OccursMultiset(t, x);
    }
  }

  lemma SameElems<T>(s: seq<T>, t: seq<T>)
    requires multiset(s) == multiset(t)
    ensures |s| == |t|
    ensures forall x :: x in s <==> x in t
  {
    assert |s| == |multiset(s)| == |multiset(t)| == |t|;
    forall x ensures x in s <==> x in t {
      assert x in s <==> x in multiset(s);
      assert x in t <==> x in multiset(t);
    }
  }

  // ----- keeping the first occurrence of each value: list(dict.fromkeys(s)) --------------

  function Dedup<T(==,!new)>(s: seq<T>): (r: seq<T>)
    ensures Distinct(r)
    ensures forall x :: x in r <==> x in s
  {
    if s == [] then []
    else
      var front := Dedup(s[..|s| - 1]);
      var x := s[|s| - 1];
      assert s == s[..|s| - 1] + [x];
      if x in front then front else front + [x]
  }

  // ----- the order of strings, by code points -----------------------------------------------

  predicate StringLeq(a: string, b: string) {
    a == "" || (b != "" && (a[0] < b[0] || (a[0] == b[0] && StringLeq(a[1..], b[1..]))))
  }

  lemma {:induction false} StringLeqTotal(a: string, b: string)
    ensures StringLeq(a, b) || StringLeq(b, a)
    ensures StringLeq(a, b) && StringLeq(b, a) ==> a == b
  {
    if a != "" && b != "" {
      StringLeqTotal(a[1..], b[1..]);
      assert a == [a[0]] + a[1..] && b == [b[0]] + b[1..];
    }
  }

  lemma {:induction false} StringLeqTransitive(a: string, b: string, c: string)
    requires StringLeq(a, b) && StringLeq(b, c)
    ensures StringLeq(a, c)
  {
    if a != "" && a[0] == b[0] == c[0] {
      StringLeqTransitive(a[1..], b[1..], c[1..]);
    }
  }

  // ----- selecting by a key, in order -----------------------------------------------------

  function Filter<T(!new)>(s: seq<T>, keep: T -> bool): (r: seq<T>)
    ensures forall x :: x in r <==> x in s && keep(x)
    ensures |r| <= |s|
  {
    if s == [] then []
    else
      var front := Filter(s[..|s| - 1], keep);
      var x := s[|s| - 1];
      assert s == s[..|s| - 1] + [x];
      if keep(x) then front + [x] else front
  }

  lemma FilterSnoc<T(!new)>(s: seq<T>, x: T, keep: T -> bool)
    ensures Filter(s + [x], keep) == if keep(x) then Filter(s, keep) + [x] else Filter(s, keep)
  {
    assert (s + [x])[..|s|] == s;
  }

  lemma FilterEmpty<T(!new)>(keep: T -> bool)
    ensures Filter([], keep) == []
  {
  }

  /** `at` are, in order, all the places in s whose element is kept. */
  ghost predicate PlacesOf<T(!new)>(s: seq<T>, keep: T -> bool, at: seq<nat>) {
    && (forall i, j :: 0 <= i < j < |at| ==> at[i] < at[j])
    && (forall p: nat :: p in at <==> p < |s| && keep(s[p]))
  }

  /** r is what stands at these places. */
  ghost predicate ReadsOff<T(!new)>(s: seq<T>, at: seq<nat>, r: seq<T>) {
    |r| == |at| && forall i :: 0 <= i < |at| ==> at[i] < |s| && r[i] == s[at[i]]
  }

  lemma PlacesNext<T(!new)>(front: seq<T>, x: T, keep: T -> bool, at: seq<nat>)
    requires PlacesOf(front, keep, at)
    ensures PlacesOf(front + [x], keep, if keep(x) then at + [|front|] else at)
  {
    var s, now := front + [x], if keep(x) then at + [|front|] else at;
    assert s[|front|] == x;
    forall i | 0 <= i < |at| ensures at[i] < |front| {
      assert at[i] in at;
    }
    forall p: nat ensures p in now <==> p < |s| && keep(s[p]) {
      assert p in now <==> p in at || (keep(x) && p == |front|);
      assert p < |front| ==> s[p] == front[p];
    }
  }

  lemma ReadsOffNext<T(!new)>(front: seq<T>, x: T, at: seq<nat>, r: seq<T>)
    requires ReadsOff(front, at, r)
    ensures ReadsOff(front + [x], at, r) && ReadsOff(front + [x], at + [|front|], r + [x])
  {
    assert (front + [x])[|front|] == x;
    assert forall i :: 0 <= i < |at| ==> (front + [x])[at[i]] == front[at[i]];
  }

  ghost predicate FilteredAt<T(!new)>(s: seq<T>, keep: T -> bool, at: seq<nat>) {
    PlacesOf(s, keep, at) && ReadsOff(s, at, Filter(s, keep))
  }

  lemma FilteredAtNext<T(!new)>(front: seq<T>, x: T, keep: T -> bool, at: seq<nat>)
    requires FilteredAt(front, keep, at)
    ensures FilteredAt(front + [x], keep, if keep(x) then at + [|front|] else at)
  {
    PlacesNext(front, x, keep, at);
    ReadsOffNext(front, x, at, Filter(front, keep));
    FilterSnoc(front, x, keep);
  }

  /** What a filter leaves stands in s in the same order, and as often. */
  lemma {:induction false} FilterPlaces<T(!new)>(s: seq<T>, keep: T -> bool) returns (at: seq<nat>)
    ensures FilteredAt(s, keep, at)
  {
    if s == [] {
      at := [];
      NothingFiltered(keep);
    } else {
      var front, x := s[..|s| - 1], s[|s| - 1];
      var before := FilterPlaces(front, keep);
      at := if keep(x) then before + [|front|] else before;
      FilteredAtNext(front, x, keep, before);
      LastBehind(s);
    }
  }

  lemma NothingFiltered<T(!new)>(keep: T -> bool)
    ensures FilteredAt([], keep, [])
  {
  }

  lemma LastBehind<T>(s: seq<T>)
    requires s != []
    ensures s[..|s| - 1] + [s[|s| - 1]] == s
  {
  }

  lemma {:induction false} FilterDistinct<T(!new)>(s: seq<T>, keep: T -> bool)
    requires Distinct(s)
    ensures Distinct(Filter(s, keep))
  {
    if s != [] {
      FilterDistinct(s[..|s| - 1], keep);
    }
  }

  // ----- sums -----------------------------------------------------------------------------

  function Sum<T>(s: seq<T>, f: T -> real): real {
    if s == [] then 0.0 else Sum(s[..|s| - 1], f) + f(s[|s| - 1])
  }

  lemma SumSnoc<T>(s: seq<T>, x: T, f: T -> real)
    ensures Sum(s + [x], f) == Sum(s, f) + f(x)
  {
    assert (s + [x])[..|s|] == s;
  }

  lemma {:induction false} SumEqual<T>(s: seq<T>, f: T -> real, g: T -> real)
    requires forall x :: x in s ==> f(x) == g(x)
    ensures Sum(s, f) == Sum(s, g)
  {
    if s != [] {
      SumEqual(s[..|s| - 1], f, g);
    }
  }

  lemma {:induction false} SumAdd<T>(s: seq<T>, f: T -> real, g: T -> real, h: T -> real)
    requires forall x :: x in s ==> h(x) == f(x) + g(x)
    ensures Sum(s, h) == Sum(s, f) + Sum(s, g)
  {
    if s != [] {
      SumAdd(s[..|s| - 1], f, g, h);
    }
  }

  lemma {:induction false} SumScale<T>(s: seq<T>, k: real, f: T -> real, g: T -> real)
    requires forall x :: x in s ==> g(x) == k * f(x)
    ensures Sum(s, g) == k * Sum(s, f)
  {
    if s != [] {
      SumScale(s[..|s| - 1], k, f, g);
      var x := s[|s| - 1];
      assert Sum(s, g) == k * Sum(s[..|s| - 1], f) + k * f(x);
    }
  }

  lemma {:induction false} SumAtLeastMember<T>(s: seq<T>, f: T -> real, m: T)
    requires m in s
    requires forall x :: x in s ==> f(x) >= 0.0
    ensures Sum(s, f) >= f(m)
  {
    var front, last := s[..|s| - 1], s[|s| - 1];
    SumNonNegative(front, f);
    if m != last {
      assert s == front + [last];
      SumAtLeastMember(front, f, m);
    }
  }

  lemma {:induction false} SumNonNegative<T>(s: seq<T>, f: T -> real)
    requires forall x :: x in s ==> f(x) >= 0.0
    ensures Sum(s, f) >= 0.0
  {
    if s != [] {
      SumNonNegative(s[..|s| - 1], f);
    }
  }

  // ----- the stable sort ------------------------------------------------------------------

  ghost predicate SortedBy<T>(s: seq<T>, key: T -> real) {
    forall i, j :: 0 <= i < j < |s| ==> key(s[i]) <= key(s[j])
  }

  /** Places x after every element whose key does not exceed its own: what makes the sort stable. */
  function Insert<T>(s: seq<T>, x: T, key: T -> real): (r: seq<T>) {
    if s == [] || key(s[|s| - 1]) <= key(x) then s + [x]
    else Insert(s[..|s| - 1], x, key) + [s[|s| - 1]]
  }

  lemma {:induction false} InsertElems<T>(s: seq<T>, x: T, key: T -> real)
    ensures multiset(Insert(s, x, key)) == multiset(s) + multiset{x}
  {
    if s != [] {
      assert s == s[..|s| - 1] + [s[|s| - 1]];
      InsertElems(s[..|s| - 1], x, key);
    }
  }

  lemma {:induction false} InsertSorted<T>(s: seq<T>, x: T, key: T -> real)
    requires SortedBy(s, key)
    ensures SortedBy(Insert(s, x, key), key)
    ensures forall y :: y in Insert(s, x, key) ==> y in s || y == x
  {
    if !(s == [] || key(s[|s| - 1]) <= key(x)) {
      InsertSorted(s[..|s| - 1], x, key);
      var front := Insert(s[..|s| - 1], x, key);
      forall i | 0 <= i < |front| ensures key(front[i]) <= key(s[|s| - 1]) {
        assert front[i] in front;
      }
    }
  }

  /** Python's `sorted(s, key=key)`. */
  function StableSort<T>(s: seq<T>, key: T -> real): (r: seq<T>)
    ensures multiset(r) == multiset(s)
    ensures SortedBy(r, key)
  {
    if s == [] then []
    else
      var front := StableSort(s[..|s| - 1], key);
      assert s == s[..|s| - 1] + [s[|s| - 1]];
      InsertElems(front, s[|s| - 1], key);
      InsertSorted(front, s[|s| - 1], key);
      Insert(front, s[|s| - 1], key)
  }

  /** A list in order is left as it is. */
  lemma {:induction false} SortedStays<T>(s: seq<T>, key: T -> real)
    requires SortedBy(s, key)
    ensures StableSort(s, key) == s
  {
    if s != [] {
      SortedFront(s, key);
      SortedStays(s[..|s| - 1], key);
      SortedStaysNext(s, key);
    }
  }

  lemma SortedFront<T>(s: seq<T>, key: T -> real)
    requires SortedBy(s, key) && s != []
    ensures var front := s[..|s| - 1];
            SortedBy(front, key) && (front == [] || key(front[|front| - 1]) <= key(s[|s| - 1]))
  {
  }

  lemma SortedStaysNext<T>(s: seq<T>, key: T -> real)
    requires s != []
    requires var front := s[..|s| - 1];
             StableSort(front, key) == front && (front == [] || key(front[|front| - 1]) <= key(s[|s| - 1]))
    ensures StableSort(s, key) == s
  {
    InsertLast(s[..|s| - 1], s[|s| - 1], key);
    assert s[..|s| - 1] + [s[|s| - 1]] == s;
  }

  lemma InsertLast<T>(s: seq<T>, x: T, key: T -> real)
    requires s == [] || key(s[|s| - 1]) <= key(x)
    ensures Insert(s, x, key) == s + [x]
  {
  }

  function WithKey<T>(key: T -> real, k: real): T -> bool {
    (x: T) => key(x) == k
  }

  lemma {:induction false} InsertStable<T(!new)>(s: seq<T>, x: T, key: T -> real, k: real)
    ensures Filter(Insert(s, x, key), WithKey(key, k))
         == Filter(s, WithKey(key, k)) + if key(x) == k then [x] else []
  {
    if s == [] || key(s[|s| - 1]) <= key(x) {
      FilterSnoc(s, x, WithKey(key, k));
    } else {
      var front, last := s[..|s| - 1], s[|s| - 1];
      InsertStable(front, x, key, k);
      assert s == front + [last];
      InsertBefore(front, Insert(front, x, key), x, last, key, k);
    }
  }

  /** With x placed before a last element of greater key. */
  lemma InsertBefore<T(!new)>(front: seq<T>, placed: seq<T>, x: T, last: T, key: T -> real, k: real)
    requires Filter(placed, WithKey(key, k)) == Filter(front, WithKey(key, k)) + if key(x) == k then [x] else []
    requires key(last) != key(x)
    ensures Filter(placed + [last], WithKey(key, k))
         == Filter(front + [last], WithKey(key, k)) + if key(x) == k then [x] else []
  {
    FilterSnoc(front, last, WithKey(key, k));
    FilterSnoc(placed, last, WithKey(key, k));
  }

  /** Elements of equal key keep the order they came in. */
  lemma {:induction false} StableSortStable<T(!new)>(s: seq<T>, key: T -> real, k: real)
    ensures Filter(StableSort(s, key), WithKey(key, k)) == Filter(s, WithKey(key, k))
  {
    if s != [] {
      var front, last := s[..|s| - 1], s[|s| - 1];
      StableSortStable(front, key, k);
      assert s == front + [last];
      FilterSnoc(front, last, WithKey(key, k));
      InsertStable(StableSort(front, key), last, key, k);
    }
  }

  /** The first n in order are as many as there are up to n, and nothing left out would come before them. */
  lemma SortedCut<T(!new)>(s: seq<T>, n: nat, key: T -> real)
    ensures |StableSort(s, key)| == |s|
    ensures var r := StableSort(s, key)[..Min(n, |s|)];
            && multiset(r) <= multiset(s)
            && forall x, y :: x in r && multiset(r)[y] < multiset(s)[y] ==> key(x) <= key(y)
  {
    var t := StableSort(s, key);
    SameElems(s, t);
    var m := Min(n, |s|);
    assert t == t[..m] + t[m..];
    assert multiset(t) == multiset(t[..m]) + multiset(t[m..]);
    forall x, y | x in t[..m] && multiset(t[..m])[y] < multiset(s)[y] ensures key(x) <= key(y) {
      assert y in multiset(t[m..]);
      assert y in t[m..];
    }
  }

  lemma StableSortElems<T>(s: seq<T>, key: T -> real)
    ensures |StableSort(s, key)| == |s|
    ensures forall x :: x in StableSort(s, key) <==> x in s
    ensures Distinct(s) ==> Distinct(StableSort(s, key))
  {
    SameElems(s, StableSort(s, key));
    if Distinct(s) {
      DistinctMultiset(s, StableSort(s, key));
    }
  }
}
