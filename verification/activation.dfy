/** The access history (assoc/activation.py) with fixed decay: each (layer, node) row keeps the latest
    accesses exactly and folds the earlier ones into a count and a first access. */
module Activations {
  import opened Common

  const RECENT_KEEP := 20

  datatype Node = Node(name: string)

  /** The global layer, or a context layer named by the scope's identity facets. */
  datatype Layer = Global | Context(key: string)

  datatype RowKey = RowKey(layer: Layer, node: Node)

  /** Times are in hours; a row exists from its first access on. */
  datatype Row = Row(recent: seq<real>, countOld: nat, firstH: real, lastH: real)

  type Table = map<RowKey, Row>

  function Hour(): real -> real {
    (t: real) => t
  }

  function Earlier(a: real, b: real): real {
    if b < a then b else a
  }

  function Later(a: real, b: real): real {
    if a < b then b else a
  }

  /** The least of a non-empty list. */
  function Least(s: seq<real>): (m: real)
    requires s != []
    ensures m in s && forall x :: x in s ==> m <= x
  {
    if |s| == 1 then s[0]
    else
      assert s == s[..|s| - 1] + [s[|s| - 1]];
      Earlier(Least(s[..|s| - 1]), s[|s| - 1])
  }

  function Greatest(s: seq<real>): (m: real)
    requires s != []
    ensures m in s && forall x :: x in s ==> x <= m
  {
    if |s| == 1 then s[0]
    else
      assert s == s[..|s| - 1] + [s[|s| - 1]];
      Later(Greatest(s[..|s| - 1]), s[|s| - 1])
  }

  // ----- the abstraction of a history --------------------------------------------------------------

  function Suffix(s: seq<real>, n: nat): seq<real> {
    if |s| <= n then s else s[|s| - n..]
  }

  /** The history in time order. */
  function Sorted(h: seq<real>): seq<real> {
    StableSort(h, Hour())
  }

  /** What the row of a history must be, `last_h` apart: the twenty latest times in order, the number of
      the others, the earliest time. */
  ghost predicate Abstracts(row: Row, h: seq<real>) {
    && h != []
    && row.recent == Suffix(Sorted(h), RECENT_KEEP)
    && row.countOld == |h| - |row.recent|
    && row.firstH == Least(h)
  }

  /** Python's `row[3] or t`: a stored 0.0 reads as missing. */
  function OrElse(stored: real, t: real): real {
    if stored == 0.0 then t else stored
  }

  /** What `last_h` is after a history: a fold that forgets a maximum of exactly 0.0. */
  function LastOf(h: seq<real>): real
    requires h != []
  {
    var t := h[|h| - 1];
    if |h| == 1 then t else Later(OrElse(LastOf(h[..|h| - 1]), t), t)
  }

  // ----- sorting a new time in ------------------------------------------------------------------------

  ghost predicate InOrder(s: seq<real>) {
    forall i, j :: 0 <= i < j < |s| ==> s[i] <= s[j]
  }

  lemma SortedInOrder(h: seq<real>)
    ensures InOrder(Sorted(h)) && |Sorted(h)| == |h| && forall x :: x in Sorted(h) <==> x in h
  {
    SameElems(h, Sorted(h));
    var s := Sorted(h);
    forall i, j | 0 <= i < j < |s| ensures s[i] <= s[j] {
      assert Hour()(s[i]) <= Hour()(s[j]);
    }
  }

  lemma SortedAppend(h: seq<real>, t: real)
    ensures Sorted(h + [t]) == Insert(Sorted(h), t, Hour())
  {
    assert (h + [t])[..|h|] == h;
  }

  /** Sorting what is in order changes nothing. */
  lemma SortFixes(s: seq<real>)
    requires InOrder(s)
    ensures Sorted(s) == s
  {
    forall i, j | 0 <= i < j < |s| ensures Hour()(s[i]) <= Hour()(s[j]) {
    }
    SortedStays(s, Hour());
  }

  lemma InsertLength(s: seq<real>, t: real)
    ensures |Insert(s, t, Hour())| == |s| + 1
  {
  }

  /** Only the latest n matter for the latest n: a new time sorted into the last n and cut again gives
      the last n of the whole with the new time sorted in. */
  lemma {:induction false} SuffixInsert(s: seq<real>, t: real, n: nat)
    ensures Suffix(Insert(Suffix(s, n), t, Hour()), n) == Suffix(Insert(s, t, Hour()), n)
  {
    InsertLength(s, t);
    InsertLength(Suffix(s, n), t);
    if |s| > n > 0 {
      var front, last := s[..|s| - 1], s[|s| - 1];
      var tail := Suffix(s, n);
      assert tail[n - 1] == last;
      if last <= t {
        assert Insert(tail, t, Hour()) == tail + [t] && Insert(s, t, Hour()) == s + [t];
      } else {
        SuffixInsert(front, t, n - 1);
        InsertLength(front, t);
        InsertLength(Suffix(front, n - 1), t);
        assert tail[..n - 1] == Suffix(front, n - 1);
        var a, b := Insert(Suffix(front, n - 1), t, Hour()), Insert(front, t, Hour());
        assert Insert(tail, t, Hour()) == a + [last] && Insert(s, t, Hour()) == b + [last];
        assert Suffix(a + [last], n) == Suffix(a, n - 1) + [last];
        assert Suffix(b + [last], n) == Suffix(b, n - 1) + [last];
      }
    }
  }

  /** One touch of a row, as the code computes it. */
  function Touched(row: Row, t: real): Row {
    var all := Sorted(row.recent + [t]);
    var kept := Suffix(all, RECENT_KEEP);
    var oldest := if kept == [] then t else Least(kept);
    Row(kept, row.countOld + |all| - |kept|, Earlier(Earlier(row.firstH, t), oldest), Later(OrElse(row.lastH, t), t))
  }

  lemma LeastAppend(h: seq<real>, t: real)
    requires h != []
    ensures Least(h + [t]) == Earlier(Least(h), t)
  {
    assert (h + [t])[..|h|] == h;
  }

  lemma SuffixElems(s: seq<real>, n: nat, x: real)
    requires x in Suffix(s, n)
    ensures x in s
  {
  }

  /** Sorting the new time into what is kept and cutting again gives what is to be kept. */
  lemma KeptAbstracts(recent: seq<real>, h: seq<real>, t: real)
    requires recent == Suffix(Sorted(h), RECENT_KEEP)
    ensures Suffix(Sorted(recent + [t]), RECENT_KEEP) == Suffix(Sorted(h + [t]), RECENT_KEEP)
    ensures |Sorted(recent + [t])| == |recent| + 1 && |Sorted(h + [t])| == |h| + 1
  {
    SortedInOrder(h);
    SortedInOrder(recent + [t]);
    SortedInOrder(h + [t]);
    SortFixes(recent);
    SortedAppend(recent, t);
    SortedAppend(h, t);
    SuffixInsert(Sorted(h), t, RECENT_KEEP);
  }

  lemma KeptIsLate(h: seq<real>, t: real)
    ensures var kept := Suffix(Sorted(h + [t]), RECENT_KEEP);
            kept != [] && Least(h + [t]) <= Least(kept)
  {
    SortedInOrder(h + [t]);
    var kept := Suffix(Sorted(h + [t]), RECENT_KEEP);
    SuffixElems(Sorted(h + [t]), RECENT_KEEP, Least(kept));
  }

  /** A touch keeps the row the abstraction of its history, backdated touches included. */
  lemma TouchAbstracts(row: Row, h: seq<real>, t: real)
    requires Abstracts(row, h)
    ensures Abstracts(Touched(row, t), h + [t])
  {
    KeptAbstracts(row.recent, h, t);
    KeptIsLate(h, t);
    LeastAppend(h, t);
  }

  // ----- what the row is good for ----------------------------------------------------------------------------

  /** Two ordered lists in which every time occurs equally often are the same list. */
  lemma {:induction false} OrderUnique(a: seq<real>, b: seq<real>)
    requires InOrder(a) && InOrder(b) && |a| == |b| && OccurAlike(a, b)
    ensures a == b
  {
    if a != [] {
      var n := |a| - 1;
      LastsAgree(a, b);
      forall x ensures Occurs(a[..n], x) == Occurs(b[..n], x) {
        assert Occurs(a, x) == Occurs(b, x);
      }
      OrderUnique(a[..n], b[..n]);
      assert a == a[..n] + [a[n]] && b == b[..n] + [b[n]];
    }
  }

  lemma LastsAgree(a: seq<real>, b: seq<real>)
    requires InOrder(a) && InOrder(b) && a != [] && |a| == |b| && OccurAlike(a, b)
    ensures a[|a| - 1] == b[|a| - 1]
  {
    LastIsGreatest(a, b[|a| - 1], b);
    LastIsGreatest(b, a[|a| - 1], a);
  }

  lemma LastIsGreatest(a: seq<real>, x: real, b: seq<real>)
    requires InOrder(a) && x in b && OccurAlike(a, b)
    ensures a != [] && x <= a[|a| - 1]
  {
    OccursMultiset(b, x);
    OccursMultiset(a, x);
    assert Occurs(a, x) == Occurs(b, x);
    var i :| 0 <= i < |a| && a[i] == x;
  }

  /** The same touches in any order leave the same row, `last_h` apart: a backdated touch is as good as one
      made in time. */
  lemma OrderDoesNotMatter(r1: Row, h1: seq<real>, r2: Row, h2: seq<real>)
    requires Abstracts(r1, h1) && Abstracts(r2, h2) && multiset(h1) == multiset(h2)
    ensures r1.recent == r2.recent && r1.countOld == r2.countOld && r1.firstH == r2.firstH
  {
    SortedInOrder(h1);
    SortedInOrder(h2);
    SameElems(h1, h2);
    SameOccurs(Sorted(h1), Sorted(h2));
    OrderUnique(Sorted(h1), Sorted(h2));
    SameElems(h1, h2);
    assert Least(h1) in h2 && Least(h2) in h1;
  }

  /** How much an access of some age still counts, and how much one of the tail does on average when the
      tail is spread between two ages: powers of the age, taken as given. */
  datatype Decay = Decay(strength: real -> real, average: (real, real) -> real, spreads: bool)

  const MIN_AGE_H := 1.0 / 60.0

  function Age(now: real, t: real): real {
    Later(now - t, MIN_AGE_H)
  }

  /** An access is as old as it is, but never less than a minute. */
  lemma AgeExactly(now: real, t: real)
    ensures Age(now, t) >= MIN_AGE_H && Age(now, t) >= now - t && (now - t >= MIN_AGE_H ==> Age(now, t) == now - t)
    ensures now - t < 1.0 / 60.0 ==> Age(now, t) == 1.0 / 60.0
  {
  }

  function StrengthAt(decay: Decay, now: real): real -> real {
    (t: real) => decay.strength(Age(now, t))
  }

  function Tail(row: Row, now: real, decay: Decay): real {
    if row.countOld == 0 then 0.0
    else
      var t1, t2 := Age(now, row.firstH), Age(now, if row.recent == [] then now else Least(row.recent));
      if t1 > t2 && decay.spreads then row.countOld as real * decay.average(t1, t2)
        else row.countOld as real * decay.strength(t1)
  }

  /** The older accesses count as many times what one counts on average between the first access and the oldest kept
      one, or at the first where the two are equally old or decay does not spread; without any, nothing. */
  lemma TailExactly(row: Row, now: real, decay: Decay, oldest: real)
    requires row.recent != [] && oldest in row.recent && forall t :: t in row.recent ==> oldest <= t
    ensures var first, last := Age(now, row.firstH), Age(now, oldest);
            var each := if first > last && decay.spreads then decay.average(first, last) else decay.strength(first);
            Tail(row, now, decay) == if row.countOld == 0 then 0.0 else row.countOld as real * each
  {
    assert Least(row.recent) == oldest;
  }

  /** Where the average lies between its ends, so does what the older accesses count. */
  lemma TailBounded(row: Row, now: real, decay: Decay, oldest: real)
    requires row.recent != [] && oldest in row.recent && forall t :: t in row.recent ==> oldest <= t
    requires var first, last := Age(now, row.firstH), Age(now, oldest);
             && first >= last && decay.strength(first) <= decay.strength(last)
             && decay.strength(first) <= decay.average(first, last) <= decay.strength(last)
    ensures row.countOld as real * decay.strength(Age(now, row.firstH)) <= Tail(row, now, decay)
         <= row.countOld as real * decay.strength(Age(now, oldest))
  {
    TailExactly(row, now, decay, oldest);
    var first, last := Age(now, row.firstH), Age(now, oldest);
    var each := if first > last && decay.spreads then decay.average(first, last) else decay.strength(first);
    ScaleBetween(row.countOld as real, decay.strength(first), each, decay.strength(last));
  }

  lemma ScaleBetween(n: real, x: real, y: real, z: real)
    requires n >= 0.0 && x <= y <= z
    ensures n * x <= n * y <= n * z
  {
  }

  /** The odds of a row: the kept accesses one by one, the older ones spread over the tail. */
  method OddsFromAccesses(now: real, row: Row, decay: Decay) returns (s: real)
    ensures s == Sum(row.recent, StrengthAt(decay, now)) + Tail(row, now, decay)
  {
    s := 0.0;
    for i := 0 to |row.recent|
      invariant s == Sum(row.recent[..i], StrengthAt(decay, now))
    {
      assert row.recent[..i + 1] == row.recent[..i] + [row.recent[i]];
      SumSnoc(row.recent[..i], row.recent[i], StrengthAt(decay, now));
      s := s + decay.strength(Age(now, row.recent[i]));
    }
    assert row.recent[..|row.recent|] == row.recent;
    s := s + Tail(row, now, decay);
  }

  lemma {:induction false} SumInsert(s: seq<real>, t: real, f: real -> real)
    ensures Sum(Insert(s, t, Hour()), f) == Sum(s, f) + f(t)
  {
    if s == [] || s[|s| - 1] <= t {
      SumSnoc(s, t, f);
    } else {
      SumInsert(s[..|s| - 1], t, f);
      SumSnoc(Insert(s[..|s| - 1], t, Hour()), s[|s| - 1], f);
    }
  }

  lemma {:induction false} SumSorted(h: seq<real>, f: real -> real)
    ensures Sum(Sorted(h), f) == Sum(h, f)
  {
    if h != [] {
      var front, last := h[..|h| - 1], h[|h| - 1];
      assert h == front + [last];
      SumSorted(front, f);
      SortedAppend(front, last);
      SumInsert(Sorted(front), last, f);
    }
  }

  /** Up to twenty accesses the compressed row loses nothing: its odds are the sum over the full history. */
  lemma ShortHistoryExact(row: Row, h: seq<real>, now: real, decay: Decay)
    requires Abstracts(row, h) && |h| <= RECENT_KEEP
    ensures row.countOld == 0
    ensures Sum(row.recent, StrengthAt(decay, now)) + Tail(row, now, decay) == Sum(h, StrengthAt(decay, now))
  {
    SortedInOrder(h);
    SumSorted(h, StrengthAt(decay, now));
  }

  // ----- the latest access ---------------------------------------------------------------------------------

  lemma {:induction false} LastInHistory(h: seq<real>)
    requires h != []
    ensures LastOf(h) in h && LastOf(h) <= Greatest(h)
  {
    if |h| > 1 {
      var front, t := h[..|h| - 1], h[|h| - 1];
      assert h == front + [t];
      LastInHistory(front);
    }
  }

  /** `last_h` is the latest access exactly when that is not hour zero, or was the last touch made: a stored
      0.0 is taken for a missing value and overwritten by whatever is touched next. */
  lemma {:induction false} LatestUnlessZero(h: seq<real>)
    requires h != []
    ensures LastOf(h) == Greatest(h) <==> Greatest(h) != 0.0 || h[|h| - 1] == 0.0
  {
    if |h| > 1 {
      var front, t := h[..|h| - 1], h[|h| - 1];
      assert h == front + [t];
      LatestUnlessZero(front);
      LastInHistory(front);
    }
  }

  /** Touched at hour 0 and then at hour -1, a row says hour -1 was the latest. */
  lemma LatestLost()
    ensures LastOf([0.0, -1.0]) == -1.0 && Greatest([0.0, -1.0]) == 0.0
  {
    assert [0.0, -1.0][..1] == [0.0];
    assert LastOf([0.0]) == 0.0;
    assert Greatest([0.0]) == 0.0;
  }

  // ----- the table --------------------------------------------------------------------------------------------

  /** One touch of one node: in no scope or in one, at a time. */
  datatype Access = Access(scope: Option<string>, node: Node, at: real)

  predicate Concerns(a: Access, k: RowKey) {
    a.node == k.node && (k.layer.Global? || a.scope == Some(k.layer.key))
  }

  /** The times of all touches a row is about, in the order they were made. A global row is about every
      touch of its node, in whatever scope. */
  function Times(log: seq<Access>, k: RowKey): seq<real> {
    if log == [] then []
    else
      var last := log[|log| - 1];
      if Concerns(last, k) then Times(log[..|log| - 1], k) + [last.at] else Times(log[..|log| - 1], k)
  }

  lemma TimesAppend(log: seq<Access>, a: Access, k: RowKey)
    ensures Times(log + [a], k) == if Concerns(a, k) then Times(log, k) + [a.at] else Times(log, k)
  {
    assert (log + [a])[..|log|] == log;
  }

  ghost predicate RowOk(row: Row, h: seq<real>) {
    Abstracts(row, h) && row.lastH == LastOf(h)
  }

  ghost predicate KeyOk(rows: Table, log: seq<Access>, k: RowKey) {
    if Times(log, k) == [] then k !in rows else k in rows && RowOk(rows[k], Times(log, k))
  }

  ghost predicate TableOk(rows: Table, log: seq<Access>) {
    forall k {:trigger KeyOk(rows, log, k)} :: KeyOk(rows, log, k)
  }

  function Written(rows: Table, k: RowKey, t: real): Row {
    if k in rows then Touched(rows[k], t) else Row([t], 0, t, t)
  }

  function Accessed(rows: Table, k: RowKey, t: real): Table {
    rows[k := Written(rows, k, t)]
  }

  lemma WrittenSame(a: Table, b: Table, k: RowKey, t: real)
    requires (k in a <==> k in b) && (k in a ==> a[k] == b[k])
    ensures Written(a, k, t) == Written(b, k, t)
  {
  }

  lemma AccessKeeps(row: Row, h: seq<real>, t: real)
    requires RowOk(row, h)
    ensures RowOk(Touched(row, t), h + [t])
  {
    TouchAbstracts(row, h, t);
    assert (h + [t])[..|h|] == h;
  }

  lemma FirstAccess(t: real)
    ensures RowOk(Row([t], 0, t, t), [t])
  {
    SortFixes([t]);
  }

  function LayersOf(scope: Option<string>): seq<Layer> {
    if scope.None? then [Global] else [Global, Context(scope.value)]
  }

  /** Both layers of one access are written once: exactly the rows it concerns. */
  lemma AccessedAt(rows: Table, a: Access, k: RowKey)
    ensures k in AccessedAll(rows, a) <==> k in rows || Concerns(a, k)
    ensures k in AccessedAll(rows, a) ==> AccessedAll(rows, a)[k] == if Concerns(a, k) then Written(rows, k, a.at)
            else rows[k]
  {
    var first := RowKey(Global, a.node);
    var both := Accessed(rows, first, a.at);
    if a.scope.Some? {
      var second := RowKey(Context(a.scope.value), a.node);
      assert second != first;
      WrittenSame(both, rows, second, a.at);
    }
    assert Concerns(a, k) <==> k == first || (a.scope.Some? && k == RowKey(Context(a.scope.value), a.node)) by {
      match k.layer {
        case Global =>
          assert k == RowKey(Global, k.node);
        case Context(key) =>
          assert k == RowKey(Context(key), k.node);
      }
    }
  }

  lemma AccessTable(rows: Table, log: seq<Access>, a: Access)
    requires TableOk(rows, log)
    ensures TableOk(AccessedAll(rows, a), log + [a])
  {
    forall k ensures KeyOk(AccessedAll(rows, a), log + [a], k) {
      assert KeyOk(rows, log, k);
      TimesAppend(log, a, k);
      AccessedAt(rows, a, k);
      FirstAccess(a.at);
      if Times(log, k) != [] {
        AccessKeeps(rows[k], Times(log, k), a.at);
      } else {
        assert [] + [a.at] == [a.at];
      }
    }
  }

  function AccessedAll(rows: Table, a: Access): Table {
    var both := Accessed(rows, RowKey(Global, a.node), a.at);
    if a.scope.None? then both else Accessed(both, RowKey(Context(a.scope.value), a.node), a.at)
  }

  function LogOf(scope: Option<string>, nodes: seq<Node>, t: real): seq<Access> {
    seq(|nodes|, i requires 0 <= i < |nodes| => Access(scope, nodes[i], t))
  }

  /** One access of a row that exists: sort the time in, cut to the latest, count the rest. */
  method Revise(row: Row, t: real) returns (r: Row)
    ensures r == Touched(row, t)
  {
    var all := Sorted(row.recent + [t]);
    var recent, countOld := all, row.countOld;
    AllSorted(row, t);
    if |recent| > RECENT_KEEP {
      countOld := countOld + |recent| - RECENT_KEEP;
      recent := recent[|recent| - RECENT_KEEP..];
    }
    r := Row(recent, countOld, Earlier(Earlier(row.firstH, t), Least(recent)), Later(OrElse(row.lastH, t), t));
  }

  lemma AllSorted(row: Row, t: real)
    ensures |Sorted(row.recent + [t])| == |row.recent| + 1
  {
    SortedInOrder(row.recent + [t]);
  }

  class Activation {
    var rows: Table
    ghost var log: seq<Access>

    ghost predicate Valid()
      reads this
    {
      TableOk(rows, log)
    }

    constructor ()
      ensures Valid() && log == []
    {
      rows, log := map[], [];
    }

    /** One access of one layer's row: read, sort the time in, cut, write back. */
    method TouchRow(k: RowKey, t: real)
      modifies this`rows
      ensures rows == Accessed(old(rows), k, t)
    {
      if k !in rows {
        rows := rows[k := Row([t], 0, t, t)];
        return;
      }
      var row := Revise(rows[k], t);
      rows := rows[k := row];
    }

    /** Records one access per node in the global layer and in the scope's, whatever the time. */
    method Touch(nodes: seq<Node>, scope: Option<string>, t: real)
      requires Valid()
      modifies this
      ensures Valid() && log == old(log) + LogOf(scope, nodes, t)
    {
      var layers := LayersOf(scope);
      for i := 0 to |nodes|
        invariant Valid() && log == old(log) + LogOf(scope, nodes[..i], t)
      {
        var a := Access(scope, nodes[i], t);
        ghost var before := rows;
        AccessTable(rows, log, a);
        for l := 0 to |layers|
          invariant log == old(log) + LogOf(scope, nodes[..i], t)
          invariant rows == if l == 0 then before else if l == 1 then Accessed(before, RowKey(Global, a.node), t)
                    else AccessedAll(before, a)
        {
          TouchRow(RowKey(layers[l], nodes[i]), t);
        }
        log := log + [a];
        assert LogOf(scope, nodes[..i + 1], t) == LogOf(scope, nodes[..i], t) + [a];
      }
      assert nodes[..|nodes|] == nodes;
    }

    /** The number of accesses of a node in a scope, or in all. */
    method Accesses(node: Node, scope: Option<string>) returns (n: nat)
      requires Valid()
      ensures n == |Times(log, RowKey(if scope.None? then Global else Context(scope.value), node))|
    {
      var k := RowKey(if scope.None? then Global else Context(scope.value), node);
      assert KeyOk(rows, log, k);
      if k !in rows {
        return 0;
      }
      n := |rows[k].recent| + rows[k].countOld;
    }
  }

  /** The global row of a node counts each of its touches once, however they were scoped. */
  lemma {:induction false} GlobalCountsAll(log: seq<Access>, node: Node)
    ensures |Times(log, RowKey(Global, node))| == |Filter(log, (a: Access) => a.node == node)|
  {
    if log != [] {
      GlobalCountsAll(log[..|log| - 1], node);
    }
  }
}
