/** The paraphrase tiers (assoc/dedup.py): nominate pairs inside a subject block, check each
    pair for equivalence, union what passes, and fold every class into its root claim. */
module Deduplication {
  import opened Common
  import opened Folding
  import opened UnionFinds

  // ----- the order of ids inside a pair -----------------------------------------------------

  type IdPair = (ClaimId, ClaimId)

  /** Python's sorted((a, b)) on ids. */
  function Ordered(a: ClaimId, b: ClaimId): IdPair {
    if a.Folded? == b.Folded? then if StringLeq(a.hash, b.hash) then (a, b) else (b, a)
    else if a.Folded? then (a, b) else (b, a)
  }

  lemma OrderedSymmetric(a: ClaimId, b: ClaimId)
    ensures Ordered(a, b) == Ordered(b, a)
    ensures Ordered(Ordered(a, b).0, Ordered(a, b).1) == Ordered(a, b)
  {
    StringLeqTotal(a.hash, b.hash);
  }

  /** The ids of a pair come in order: folded claims before removal events, and by hash among themselves. */
  lemma OrderedInOrder(a: ClaimId, b: ClaimId)
    ensures var (x, y) := Ordered(a, b);
            && ((x, y) == (a, b) || (x, y) == (b, a))
            && (x.Folded? == y.Folded? ==> StringLeq(x.hash, y.hash))
            && (x.Folded? != y.Folded? ==> x.Folded?)
  {
    StringLeqTotal(a.hash, b.hash);
  }

  // ----- blocks ----------------------------------------------------------------------------

  const US := '\U{1f}'

  function BlockKey(c: Claim): string {
    c.subject + [US] + c.facet
  }

  /** The claim shares its block with no claim of another subject or facet. */
  ghost predicate OwnBlock(c: Claim) {
    forall d: Claim :: BlockKey(d) == BlockKey(c) ==> d.subject == c.subject && d.facet == c.facet
  }

  /** A block is one (subject, facet) if and only if neither holds the separator. */
  lemma BlockKeyExact(c: Claim)
    ensures OwnBlock(c) <==> US !in c.subject && US !in c.facet
  {
    var key := BlockKey(c);
    if US !in c.subject && US !in c.facet {
      forall d: Claim | BlockKey(d) == key ensures d.subject == c.subject && d.facet == c.facet {
        OneSeparator(c, d);
      }
    } else if US in c.facet {
      var k :| 0 <= k < |c.facet| && c.facet[k] == US;
      var d := c.(subject := c.subject + [US] + c.facet[..k], facet := c.facet[k + 1..]);
      assert c.facet == c.facet[..k] + [US] + c.facet[k + 1..];
      assert BlockKey(d) == key;
      assert |d.subject| != |c.subject|;
    } else {
      var k :| 0 <= k < |c.subject| && c.subject[k] == US;
      var d := c.(subject := c.subject[..k], facet := c.subject[k + 1..] + [US] + c.facet);
      assert c.subject == c.subject[..k] + [US] + c.subject[k + 1..];
      assert BlockKey(d) == key;
      assert |d.subject| != |c.subject|;
    }
  }

  lemma OneSeparator(c: Claim, d: Claim)
    requires US !in c.subject && US !in c.facet && BlockKey(d) == BlockKey(c)
    ensures d.subject == c.subject && d.facet == c.facet
  {
    var kc, kd := BlockKey(c), BlockKey(d);
    var n, m := |c.subject|, |d.subject|;
    assert forall k :: 0 <= k < n ==> kc[k] in c.subject;
    assert forall k :: n < k < |kc| ==> kc[k] == c.facet[k - n - 1] && kc[k] in c.facet;
    assert kc[m] == kd[m] == US;
    assert m == n;
    assert kc[..n] == c.subject && kd[..n] == d.subject;
    assert kc[n + 1..] == c.facet && kd[n + 1..] == d.facet;
  }

  /** Two claims of different subjects in one block. */
  lemma BlockKeyCollides(a: Claim, b: Claim)
    requires a.subject == "x" && a.facet == ['y', US, 'z']
    requires b.subject == ['x', US, 'y'] && b.facet == "z"
    ensures BlockKey(a) == BlockKey(b) && !OwnBlock(a) && !OwnBlock(b)
  {
    BlockKeyExact(a);
    BlockKeyExact(b);
  }

  // ----- nomination ------------------------------------------------------------------------

  datatype Tier = Tier2 | Tier3
  datatype Pair = Pair(a: ClaimId, b: ClaimId, tier: Tier)

  type Length = x: real | x >= 0.0 witness 0.0

  /** Cell sets and embeddings of texts, and the length of a vector, taken as given. */
  datatype Nominator = Nominator(
    cells: string -> set<int>, embed: Option<string -> seq<real>>, length: seq<real> -> Length, tier3Min: real)

  const LENGTH_GUARD := 0.000000001

  /** The embedding of a text over its length, guarded against a length of zero. */
  function Unit(nm: Nominator, text: string): seq<real>
    requires nm.embed.Some?
  {
    var v := nm.embed.value(text);
    var d := nm.length(v) + LENGTH_GUARD;
    seq(|v|, i requires 0 <= i < |v| => v[i] / d)
  }

  const TIER3_MAX_BLOCK := 400

  function Dot(u: seq<real>, v: seq<real>): real {
    if u == [] || v == [] then 0.0 else u[0] * v[0] + Dot(u[1..], v[1..])
  }

  lemma {:induction false} DotSymmetric(u: seq<real>, v: seq<real>)
    ensures Dot(u, v) == Dot(v, u)
  {
    if u != [] && v != [] {
      DotSymmetric(u[1..], v[1..]);
      assert u[0] * v[0] == v[0] * u[0];
    }
  }

  /** Component by component, from either end. */
  lemma {:induction false} DotSnoc(u: seq<real>, v: seq<real>, x: real, y: real)
    requires |u| == |v|
    ensures Dot(u + [x], v + [y]) == Dot(u, v) + x * y
  {
    if u == [] {
      assert u + [x] == [x] && v + [y] == [y];
      assert Dot([x], [y]) == x * y + Dot([x][1..], [y][1..]);
    } else {
      assert (u + [x])[1..] == u[1..] + [x] && (v + [y])[1..] == v[1..] + [y];
      DotSnoc(u[1..], v[1..], x, y);
    }
  }

  function Over(v: seq<real>, d: real): seq<real>
    requires d > 0.0
  {
    seq(|v|, i requires 0 <= i < |v| => v[i] / d)
  }

  lemma {:induction false} DotOver(u: seq<real>, v: seq<real>, d: real)
    requires d > 0.0
    ensures Dot(Over(u, d), v) * d == Dot(u, v)
  {
    if u != [] && v != [] {
      assert Over(u, d)[1..] == Over(u[1..], d);
      DotOver(u[1..], v[1..], d);
      OneTerm(u[0], v[0], d, Dot(Over(u[1..], d), v[1..]));
    }
  }

  lemma OneTerm(x: real, y: real, d: real, rest: real)
    requires d > 0.0
    ensures (x / d * y + rest) * d == x * y + rest * d
  {
    assert x / d * d == x;
  }

  /** Two texts are close exactly when their embeddings' product reaches the threshold's part of the product of their
      guarded lengths: a cosine, with the guard in it. */
  lemma CloseExactly(nm: Nominator, claims: Claims, a: ClaimId, b: ClaimId)
    requires a in claims && b in claims && nm.embed.Some?
    ensures var u, v := nm.embed.value(claims[a].text), nm.embed.value(claims[b].text);
            var c, d := nm.length(u) + LENGTH_GUARD, nm.length(v) + LENGTH_GUARD;
            Close(nm, claims, a, b) <==> Dot(u, v) >= nm.tier3Min * d * c
  {
    var u, v := nm.embed.value(claims[a].text), nm.embed.value(claims[b].text);
    var c, d := nm.length(u) + LENGTH_GUARD, nm.length(v) + LENGTH_GUARD;
    assert Unit(nm, claims[a].text) == Over(u, c) && Unit(nm, claims[b].text) == Over(v, d);
    DotOver(u, Over(v, d), c);
    DotSymmetric(u, Over(v, d));
    DotOver(v, u, d);
    DotSymmetric(v, u);
    Cleared(Dot(Over(u, c), Over(v, d)), c, d, nm.tier3Min, Dot(u, v));
  }

  lemma Cleared(cos: real, c: real, d: real, min: real, whole: real)
    requires c > 0.0 && d > 0.0 && cos * c * d == whole
    ensures cos >= min <==> whole >= min * d * c
  {
    var n := c * d;
    assert n > 0.0 && whole == cos * n && min * d * c == min * n;
    assert cos >= min ==> cos * n >= min * n;
    assert cos < min ==> cos * n < min * n;
  }

  /** The claims of one block, in table order; removal events are in none. */
  function Block(ids: seq<ClaimId>, claims: Claims, key: string): seq<ClaimId> {
    Filter(ids, (x: ClaimId) => x.Folded? && x in claims && BlockKey(claims[x]) == key)
  }

  predicate SameBlock(claims: Claims, a: ClaimId, b: ClaimId)
    requires a in claims && b in claims
  {
    a.Folded? && b.Folded? && BlockKey(claims[a]) == BlockKey(claims[b]) && BlockKey(claims[a])[0] != US
  }

  predicate SameCells(nm: Nominator, claims: Claims, a: ClaimId, b: ClaimId)
    requires a in claims && b in claims
  {
    nm.cells(claims[a].text) == nm.cells(claims[b].text) != {}
  }

  predicate Close(nm: Nominator, claims: Claims, a: ClaimId, b: ClaimId)
    requires a in claims && b in claims
  {
    nm.embed.Some? && Dot(Unit(nm, claims[a].text), Unit(nm, claims[b].text)) >= nm.tier3Min
  }

  /** The pair is nominated, and by which tier. */
  predicate Nominated(nm: Nominator, ids: seq<ClaimId>, claims: Claims, a: ClaimId, b: ClaimId, tier: Tier)
    requires a in claims && b in claims
  {
    && SameBlock(claims, a, b)
    && match tier
       case Tier2 => SameCells(nm, claims, a, b)
       case Tier3 =>
         !SameCells(nm, claims, a, b) && Close(nm, claims, a, b)
           && |Block(ids, claims, BlockKey(claims[a]))| <= TIER3_MAX_BLOCK
  }

  function Seen(pairs: seq<Pair>): set<IdPair> {
    set i | 0 <= i < |pairs| :: (pairs[i].a, pairs[i].b)
  }

  lemma SeenAppend(pairs: seq<Pair>, p: Pair)
    ensures Seen(pairs + [p]) == Seen(pairs) + {(p.a, p.b)}
  {
    var more := pairs + [p];
    assert forall i :: 0 <= i < |pairs| ==> more[i] == pairs[i];
    assert more[|pairs|] == p;
  }

  /** Ordered pairs of a list, i before j, that meet a condition. */
  ghost predicate Wanted(group: seq<ClaimId>, ok: (ClaimId, ClaimId) -> bool, i: int, j: int, p: IdPair) {
    0 <= i < j < |group| && ok(group[i], group[j]) && p == Ordered(group[i], group[j])
  }

  ghost predicate DistinctPairs(pairs: seq<Pair>) {
    forall i, j :: 0 <= i < j < |pairs| ==> (pairs[i].a, pairs[i].b) != (pairs[j].a, pairs[j].b)
  }

  /** pairs extends pairs0 by wanted pairs of the tier that were not there before. */
  ghost predicate Extends(pairs0: seq<Pair>, pairs: seq<Pair>, group: seq<ClaimId>, ok: (ClaimId, ClaimId) -> bool,
                          tier: Tier)
  {
    && pairs0 <= pairs
    && (DistinctPairs(pairs0) ==> DistinctPairs(pairs))
    && forall x :: |pairs0| <= x < |pairs| ==>
                     && pairs[x].tier == tier && (pairs[x].a, pairs[x].b) !in Seen(pairs0)
                     && exists i, j :: Wanted(group, ok, i, j, (pairs[x].a, pairs[x].b))
  }

  /** Every wanted pair before (i, j) in the double loop's order has been seen. */
  ghost predicate PairedTo(group: seq<ClaimId>, ok: (ClaimId, ClaimId) -> bool, pairs: seq<Pair>, i: nat, j: nat) {
    forall x, y :: 0 <= x < y < |group| && (x < i || (x == i && y < j)) && ok(group[x], group[y]) ==>
                     Ordered(group[x], group[y]) in Seen(pairs)
  }

  /** The turn of (i, j): its pair is seen afterwards, if it is wanted. */
  method PairTurn(group: seq<ClaimId>, ok: (ClaimId, ClaimId) -> bool, tier: Tier, ghost pairs0: seq<Pair>,
                  before: seq<Pair>, i: nat, j: nat)
    returns (pairs: seq<Pair>)
    requires i < j < |group| && PairedTo(group, ok, before, i, j)
    requires Extends(pairs0, before, group, ok, tier) && Seen(pairs0) <= Seen(before)
    ensures PairedTo(group, ok, pairs, i, j + 1)
    ensures Extends(pairs0, pairs, group, ok, tier) && Seen(pairs0) <= Seen(pairs)
  {
    pairs := before;
    if ok(group[i], group[j]) {
      var (a, b) := Ordered(group[i], group[j]);
      if (a, b) !in Seen(pairs) {
        assert Wanted(group, ok, i, j, (a, b));
        SeenAppend(pairs, Pair(a, b, tier));
        ExtendsStep(pairs0, pairs, group, ok, tier, Pair(a, b, tier));
        pairs := pairs + [Pair(a, b, tier)];
      }
    }
  }

  /** The source's double loop over a group, skipping what is already seen. */
  method PairUp(group: seq<ClaimId>, ok: (ClaimId, ClaimId) -> bool, tier: Tier, pairs0: seq<Pair>)
    returns (pairs: seq<Pair>)
    ensures Extends(pairs0, pairs, group, ok, tier)
    ensures forall i, j :: 0 <= i < j < |group| && ok(group[i], group[j]) ==>
                             Ordered(group[i], group[j]) in Seen(pairs)
    ensures Seen(pairs0) <= Seen(pairs)
  {
    pairs := pairs0;
    for i := 0 to |group|
      invariant Extends(pairs0, pairs, group, ok, tier) && Seen(pairs0) <= Seen(pairs)
      invariant PairedTo(group, ok, pairs, i, 0)
    {
      for j := i + 1 to |group|
        invariant Extends(pairs0, pairs, group, ok, tier) && Seen(pairs0) <= Seen(pairs)
        invariant PairedTo(group, ok, pairs, i, j)
      {
        pairs := PairTurn(group, ok, tier, pairs0, pairs, i, j);
      }
    }
  }

  lemma ExtendsStep(pairs0: seq<Pair>, pairs: seq<Pair>, group: seq<ClaimId>, ok: (ClaimId, ClaimId) -> bool,
                    tier: Tier, p: Pair)
    requires Extends(pairs0, pairs, group, ok, tier) && Seen(pairs0) <= Seen(pairs)
    requires (p.a, p.b) !in Seen(pairs) && p.tier == tier
    requires exists i, j :: Wanted(group, ok, i, j, (p.a, p.b))
    ensures Extends(pairs0, pairs + [p], group, ok, tier)
  {
    var more := pairs + [p];
    if DistinctPairs(pairs0) {
      forall i, j | 0 <= i < j < |more| ensures (more[i].a, more[i].b) != (more[j].a, more[j].b) {
        if j == |pairs| {
          assert (pairs[i].a, pairs[i].b) in Seen(pairs);
        }
      }
    }
  }

  // ----- grouping, in order of first appearance -------------------------------------------

  function Keyed<K(==)>(ids: seq<ClaimId>, key: ClaimId -> K, k: K): seq<ClaimId> {
    Filter(ids, (x: ClaimId) => key(x) == k)
  }

  lemma KeyedElems<K>(ids: seq<ClaimId>, key: ClaimId -> K, k: K)
    ensures forall x :: x in Keyed(ids, key, k) <==> x in ids && key(x) == k
    ensures Distinct(ids) ==> Distinct(Keyed(ids, key, k))
  {
    if Distinct(ids) {
      FilterDistinct(ids, (x: ClaimId) => key(x) == k);
    }
  }

  ghost predicate GroupOk<K>(ids: seq<ClaimId>, key: ClaimId -> K, groups: map<K, seq<ClaimId>>, k: K) {
    if exists x :: x in ids && key(x) == k then k in groups && groups[k] == Keyed(ids, key, k) else k !in groups
  }

  /** defaultdict(list): every key that occurs, with its ids in order. */
  method GroupBy<K(==)>(ids: seq<ClaimId>, key: ClaimId -> K) returns (order: seq<K>, groups: map<K, seq<ClaimId>>)
    ensures Distinct(order)
    ensures forall k :: k in order <==> k in groups
    ensures forall x :: x in ids ==> key(x) in order
    ensures forall k :: k in order ==> groups[k] == Keyed(ids, key, k) && exists x :: x in ids && key(x) == k
  {
    order, groups := [], map[];
    for n := 0 to |ids|
      invariant Distinct(order)
      invariant forall k :: k in groups <==> k in order
      invariant forall k {:trigger GroupOk(ids[..n], key, groups, k)} :: GroupOk(ids[..n], key, groups, k)
    {
      var x := ids[n];
      var k := key(x);
      ghost var groups0 := groups;
      ghost var more := ids[..n + 1];
      assert more == ids[..n] + [x];
      assert GroupOk(ids[..n], key, groups0, k);
      if k !in groups {
        NoneKeyed(ids[..n], key, k);
        order, groups := order + [k], groups[k := []];
      }
      groups := groups[k := groups[k] + [x]];
      forall j ensures GroupOk(more, key, groups, j) {
        assert GroupOk(ids[..n], key, groups0, j);
        KeyedAppend(ids[..n], key, j, x);
        assert (exists y :: y in more && key(y) == j) <==> j == k || exists y :: y in ids[..n] && key(y) == j;
      }
    }
    assert ids[..|ids|] == ids;
    forall x | x in ids ensures key(x) in order {
      assert GroupOk(ids, key, groups, key(x));
    }
    forall k | k in order ensures groups[k] == Keyed(ids, key, k) && exists x :: x in ids && key(x) == k {
      assert GroupOk(ids, key, groups, k);
    }
  }

  lemma KeyedAppend<K>(ids: seq<ClaimId>, key: ClaimId -> K, k: K, x: ClaimId)
    ensures Keyed(ids + [x], key, k) == if key(x) == k then Keyed(ids, key, k) + [x] else Keyed(ids, key, k)
  {
    FilterSnoc(ids, x, (y: ClaimId) => key(y) == k);
  }

  lemma {:induction false} NoneKeyed<K>(ids: seq<ClaimId>, key: ClaimId -> K, k: K)
    requires forall x :: x in ids ==> key(x) != k
    ensures Keyed(ids, key, k) == []
  {
    if ids != [] {
      var front, last := ids[..|ids| - 1], ids[|ids| - 1];
      assert ids == front + [last];
      NoneKeyed(front, key, k);
      KeyedAppend(front, key, k, last);
    }
  }

  // ----- nominate ----------------------------------------------------------------------------

  ghost predicate PairOk(nm: Nominator, ids: seq<ClaimId>, claims: Claims, p: Pair) {
    && p.a in ids && p.b in ids && p.a != p.b && p.a in claims && p.b in claims
    && Ordered(p.a, p.b) == (p.a, p.b)
    && Nominated(nm, ids, claims, p.a, p.b, p.tier)
  }

  /** Every nomination of the tier within the block of the key is among the pairs. */
  ghost predicate Covered(nm: Nominator, ids: seq<ClaimId>, claims: Claims, pairs: seq<Pair>, key: string, tier: Tier) {
    forall a, b | a in ids && b in ids && a != b && a in claims && b in claims && BlockKey(claims[a]) == key ::
      Nominated(nm, ids, claims, a, b, tier) ==> Ordered(a, b) in Seen(pairs)
  }

  /** Two different members of a distinct list, as positions. */
  lemma Positions(group: seq<ClaimId>, a: ClaimId, b: ClaimId) returns (i: nat, j: nat)
    requires a in group && b in group && a != b
    ensures i < j < |group| && ((group[i] == a && group[j] == b) || (group[i] == b && group[j] == a))
  {
    i :| 0 <= i < |group| && group[i] == a;
    j :| 0 <= j < |group| && group[j] == b;
    if j < i {
      i, j := j, i;
    }
  }

  lemma NominatedSymmetric(nm: Nominator, ids: seq<ClaimId>, claims: Claims, a: ClaimId, b: ClaimId, tier: Tier)
    requires a in claims && b in claims
    ensures Nominated(nm, ids, claims, a, b, tier) == Nominated(nm, ids, claims, b, a, tier)
  {
    if nm.embed.Some? {
      DotSymmetric(Unit(nm, claims[a].text), Unit(nm, claims[b].text));
    }
  }

  function CellsOf(nm: Nominator, claims: Claims): ClaimId -> set<int> {
    (x: ClaimId) => if x in claims then nm.cells(claims[x].text) else {}
  }

  function CloseIn(nm: Nominator, claims: Claims): (ClaimId, ClaimId) -> bool {
    (x: ClaimId, y: ClaimId) => x in claims && y in claims && Close(nm, claims, x, y)
  }

  function Always(): (ClaimId, ClaimId) -> bool {
    (x: ClaimId, y: ClaimId) => true
  }

  /** What holds of the pairs while a block is worked through. */
  ghost predicate InBlock(nm: Nominator, ids: seq<ClaimId>, claims: Claims, key: string, before: nat, pairs: seq<Pair>)
  {
    && before <= |pairs| && DistinctPairs(pairs)
    && forall x :: 0 <= x < |pairs| ==>
                     PairOk(nm, ids, claims, pairs[x]) && (before <= x <==> BlockKey(claims[pairs[x].a]) == key)
  }

  lemma WantedInBlock(nm: Nominator, ids: seq<ClaimId>, claims: Claims, key: string, group: seq<ClaimId>,
                      ok: (ClaimId, ClaimId) -> bool, i: nat, j: nat, p: IdPair)
    requires Distinct(group) && Wanted(group, ok, i, j, p)
    requires key != "" && key[0] != US
    requires forall x :: x in group ==> x in Block(ids, claims, key)
    ensures p.0 in ids && p.1 in ids && p.0 in claims && p.1 in claims && p.0 != p.1 && Ordered(p.0, p.1) == p
    ensures SameBlock(claims, p.0, p.1) && BlockKey(claims[p.0]) == key
    ensures ok(p.0, p.1) || ok(p.1, p.0)
    ensures p.0 in group && p.1 in group
  {
    OrderedSymmetric(group[i], group[j]);
    assert group[i] in group && group[j] in group;
  }

  /** Tier 2 on one group: its members share a non-empty cell set. */
  lemma Tier2Step(nm: Nominator, ids: seq<ClaimId>, claims: Claims, key: string, before: nat,
                  group: seq<ClaimId>, pairs0: seq<Pair>, pairs: seq<Pair>)
    requires InBlock(nm, ids, claims, key, before, pairs0) && Extends(pairs0, pairs, group, Always(), Tier2)
    requires Distinct(group) && key != "" && key[0] != US
    requires forall x :: x in group ==> x in Block(ids, claims, key)
    requires forall x, y :: x in group && y in group ==> x in claims && y in claims && SameCells(nm, claims, x, y)
    ensures InBlock(nm, ids, claims, key, before, pairs)
  {
    forall x | |pairs0| <= x < |pairs|
      ensures PairOk(nm, ids, claims, pairs[x]) && BlockKey(claims[pairs[x].a]) == key
    {
      var i, j :| Wanted(group, Always(), i, j, (pairs[x].a, pairs[x].b));
      WantedInBlock(nm, ids, claims, key, group, Always(), i, j, (pairs[x].a, pairs[x].b));
    }
  }

  /** Tier 3 on the whole block: what tier 2 has taken is already seen. */
  lemma Tier3Step(nm: Nominator, ids: seq<ClaimId>, claims: Claims, key: string, before: nat,
                  block: seq<ClaimId>, pairs0: seq<Pair>, pairs: seq<Pair>)
    requires InBlock(nm, ids, claims, key, before, pairs0) && Extends(pairs0, pairs, block, CloseIn(nm, claims), Tier3)
    requires Distinct(block) && block == Block(ids, claims, key) && |block| <= TIER3_MAX_BLOCK && key != ""
             && key[0] != US
    requires Covered(nm, ids, claims, pairs0, key, Tier2)
    ensures InBlock(nm, ids, claims, key, before, pairs)
  {
    var ok := CloseIn(nm, claims);
    forall x | |pairs0| <= x < |pairs|
      ensures PairOk(nm, ids, claims, pairs[x]) && BlockKey(claims[pairs[x].a]) == key
    {
      var p := pairs[x];
      var i, j :| Wanted(block, ok, i, j, (p.a, p.b));
      WantedInBlock(nm, ids, claims, key, block, ok, i, j, (p.a, p.b));
      assert Ordered(p.a, p.b) !in Seen(pairs0);
      assert !Nominated(nm, ids, claims, p.a, p.b, Tier2);
      DotCommutes(nm, claims, p.a, p.b);
    }
  }

  lemma DotCommutes(nm: Nominator, claims: Claims, a: ClaimId, b: ClaimId)
    requires a in claims && b in claims
    ensures Close(nm, claims, a, b) == Close(nm, claims, b, a)
  {
    if nm.embed.Some? {
      DotSymmetric(Unit(nm, claims[a].text), Unit(nm, claims[b].text));
    }
  }

  /** One pass of PairUp sees every wanted pair, in either order of its two ids. */
  lemma PassCovers(group: seq<ClaimId>, ok: (ClaimId, ClaimId) -> bool, pairs: seq<Pair>, a: ClaimId, b: ClaimId)
    requires a in group && b in group && a != b && ok(a, b) && ok(b, a)
    requires forall i, j :: 0 <= i < j < |group| && ok(group[i], group[j]) ==>
             Ordered(group[i], group[j]) in Seen(pairs)
    ensures Ordered(a, b) in Seen(pairs)
  {
    var i, j := Positions(group, a, b);
    OrderedSymmetric(a, b);
  }

  method NominateBlock(nm: Nominator, ids: seq<ClaimId>, claims: Claims, key: string, block: seq<ClaimId>,
                       pairs0: seq<Pair>)
    returns (pairs: seq<Pair>)
    requires Distinct(ids) && key != ""
    requires forall x :: x in ids ==> x in claims
    requires block == Block(ids, claims, key)
    requires InBlock(nm, ids, claims, key, |pairs0|, pairs0)
    ensures InBlock(nm, ids, claims, key, |pairs0|, pairs) && pairs0 <= pairs
    ensures Covered(nm, ids, claims, pairs, key, Tier2) && Covered(nm, ids, claims, pairs, key, Tier3)
  {
    pairs := pairs0;
    if |block| < 2 || key[0] == US {
      NothingNominated(nm, ids, claims, pairs, key, Tier2);
      NothingNominated(nm, ids, claims, pairs, key, Tier3);
      return;
    }
    FilterDistinct(ids, (x: ClaimId) => x.Folded? && x in claims && BlockKey(claims[x]) == key);
    pairs := NominateByCells(nm, ids, claims, key, block, pairs0);
    if nm.embed.Some? && |block| <= TIER3_MAX_BLOCK {
      var mid := pairs;
      pairs := PairUp(block, CloseIn(nm, claims), Tier3, mid);
      Tier3Step(nm, ids, claims, key, |pairs0|, block, mid, pairs);
      forall a, b | a in ids && b in ids && a != b && a in claims && b in claims && BlockKey(claims[a]) == key
        ensures Nominated(nm, ids, claims, a, b, Tier3) ==> Ordered(a, b) in Seen(pairs)
      {
        if Nominated(nm, ids, claims, a, b, Tier3) {
          DotCommutes(nm, claims, a, b);
          PassCovers(block, CloseIn(nm, claims), pairs, a, b);
        }
      }
    }
  }

  lemma NothingNominated(nm: Nominator, ids: seq<ClaimId>, claims: Claims, pairs: seq<Pair>, key: string, tier: Tier)
    requires key != "" && (|Block(ids, claims, key)| < 2 || key[0] == US)
    ensures Covered(nm, ids, claims, pairs, key, tier)
  {
    forall a, b | a in ids && b in ids && a != b && a in claims && b in claims && BlockKey(claims[a]) == key
      ensures !Nominated(nm, ids, claims, a, b, tier)
    {
      var block := Block(ids, claims, key);
      if a in block && b in block {
        var i, j := Positions(block, a, b);
      }
    }
  }

  method NominateByCells(nm: Nominator, ids: seq<ClaimId>, claims: Claims, key: string, block: seq<ClaimId>,
                         pairs0: seq<Pair>)
    returns (pairs: seq<Pair>)
    requires Distinct(block) && key != "" && key[0] != US
    requires block == Block(ids, claims, key)
    requires InBlock(nm, ids, claims, key, |pairs0|, pairs0)
    ensures InBlock(nm, ids, claims, key, |pairs0|, pairs) && pairs0 <= pairs
    ensures Covered(nm, ids, claims, pairs, key, Tier2)
  {
    pairs := pairs0;
    var cells := CellsOf(nm, claims);
    var celled := Filter(block, (x: ClaimId) => cells(x) != {});
    FilterDistinct(block, (x: ClaimId) => cells(x) != {});
    var order, groups := GroupBy(celled, cells);
    for n := 0 to |order|
      invariant InBlock(nm, ids, claims, key, |pairs0|, pairs) && pairs0 <= pairs
      invariant CellsCovered(cells, celled, order[..n], pairs)
    {
      var k := order[n];
      assert k in order;
      var group := groups[k];
      GroupSharesCells(nm, claims, celled, block, k);
      var more := PairUp(group, Always(), Tier2, pairs);
      Tier2Step(nm, ids, claims, key, |pairs0|, group, pairs, more);
      forall x, y | x in celled && y in celled && x != y && cells(x) == cells(y) && cells(x) in order[..n + 1]
        ensures Ordered(x, y) in Seen(more)
      {
        if cells(x) == k {
          PassCovers(group, Always(), more, x, y);
        } else {
          assert cells(x) in order[..n];
        }
      }
      pairs := more;
    }
    assert order[..|order|] == order;
    forall a, b | a in ids && b in ids && a != b && a in claims && b in claims && BlockKey(claims[a]) == key
      ensures Nominated(nm, ids, claims, a, b, Tier2) ==> Ordered(a, b) in Seen(pairs)
    {
      if Nominated(nm, ids, claims, a, b, Tier2) {
        assert a in celled && b in celled && cells(a) in order;
      }
    }
  }

  ghost predicate CellsCovered(cells: ClaimId -> set<int>, celled: seq<ClaimId>, order: seq<set<int>>, pairs: seq<Pair>)
  {
    forall x, y | x in celled && y in celled && x != y && cells(x) == cells(y) ::
      cells(x) in order ==> Ordered(x, y) in Seen(pairs)
  }

  lemma GroupSharesCells(nm: Nominator, claims: Claims, celled: seq<ClaimId>, block: seq<ClaimId>, k: set<int>)
    requires Distinct(celled)
    requires forall x :: x in celled ==> x in block && x in claims && nm.cells(claims[x].text) != {}
    ensures var group := Keyed(celled, CellsOf(nm, claims), k);
            && Distinct(group)
            && (forall x :: x in group ==> x in block)
            && forall x, y :: x in group && y in group ==> x in claims && y in claims && SameCells(nm, claims, x, y)
  {
    KeyedElems(celled, CellsOf(nm, claims), k);
  }

  /** Candidate pairs from both tiers: the right pairs, all of them, each once. */
  method Nominate(nm: Nominator, ids: seq<ClaimId>, claims: Claims) returns (pairs: seq<Pair>)
    requires Distinct(ids)
    requires forall x :: x in ids ==> x in claims
    ensures DistinctPairs(pairs)
    ensures forall p :: p in pairs ==> PairOk(nm, ids, claims, p)
    ensures forall key, tier :: Covered(nm, ids, claims, pairs, key, tier)
  {
    pairs := [];
    var folded := Filter(ids, (x: ClaimId) => x.Folded?);
    var key := KeyIn(claims);
    var order, blocks := GroupBy(folded, key);
    for n := 0 to |order|
      invariant Visited(nm, ids, claims, order[..n], pairs)
    {
      var k := order[n];
      assert k in order;
      BlockOfGroup(ids, claims, k);
      assert forall x :: 0 <= x < |pairs| ==> BlockKey(claims[pairs[x].a]) != k by {
        assert k !in order[..n];
        assert forall x :: 0 <= x < |pairs| ==> pairs[x] in pairs;
      }
      var before := pairs;
      var y :| y in folded && key(y) == k;
      pairs := NominateBlock(nm, ids, claims, k, blocks[k], before);
      VisitedStep(nm, ids, claims, order, n, before, pairs);
    }
    assert order[..|order|] == order;
    forall k, tier ensures Covered(nm, ids, claims, pairs, k, tier) {
      forall a, b | a in ids && b in ids && a != b && a in claims && b in claims && BlockKey(claims[a]) == k
        ensures Nominated(nm, ids, claims, a, b, tier) ==> Ordered(a, b) in Seen(pairs)
      {
        if Nominated(nm, ids, claims, a, b, tier) {
          assert a in folded && key(a) in order;
          assert Covered(nm, ids, claims, pairs, k, tier);
        }
      }
    }
  }

  function KeyIn(claims: Claims): ClaimId -> string {
    (x: ClaimId) => if x in claims then BlockKey(claims[x]) else ""
  }

  lemma {:induction false} BlockOfGroup(ids: seq<ClaimId>, claims: Claims, k: string)
    requires forall x :: x in ids ==> x in claims
    ensures Keyed(Filter(ids, (x: ClaimId) => x.Folded?), KeyIn(claims), k) == Block(ids, claims, k)
  {
    if ids != [] {
      var front, last := ids[..|ids| - 1], ids[|ids| - 1];
      assert ids == front + [last];
      BlockOfGroup(front, claims, k);
      FilterSnoc(front, last, (x: ClaimId) => x.Folded?);
      FilterSnoc(front, last, (x: ClaimId) => x.Folded? && x in claims && BlockKey(claims[x]) == k);
      KeyedAppend(Filter(front, (x: ClaimId) => x.Folded?), KeyIn(claims), k, last);
    }
  }

  /** The blocks worked through so far: their pairs are there, and no others. */
  ghost predicate Visited(nm: Nominator, ids: seq<ClaimId>, claims: Claims, keys: seq<string>, pairs: seq<Pair>) {
    && DistinctPairs(pairs)
    && (forall p :: p in pairs ==> PairOk(nm, ids, claims, p) && BlockKey(claims[p.a]) in keys)
    && (forall k, tier :: k in keys ==> Covered(nm, ids, claims, pairs, k, tier))
  }

  lemma VisitedStep(nm: Nominator, ids: seq<ClaimId>, claims: Claims, order: seq<string>, n: nat, pairs0: seq<Pair>,
                    pairs: seq<Pair>)
    requires n < |order| && Visited(nm, ids, claims, order[..n], pairs0) && pairs0 <= pairs
    requires InBlock(nm, ids, claims, order[n], |pairs0|, pairs)
    requires Covered(nm, ids, claims, pairs, order[n], Tier2) && Covered(nm, ids, claims, pairs, order[n], Tier3)
    ensures Visited(nm, ids, claims, order[..n + 1], pairs)
  {
    forall p | p in pairs ensures PairOk(nm, ids, claims, p) && BlockKey(claims[p.a]) in order[..n + 1] {
      var x :| 0 <= x < |pairs| && pairs[x] == p;
      if x < |pairs0| {
        assert pairs0[x] == p;
        assert BlockKey(claims[p.a]) in order[..n];
      } else {
        assert order[..n + 1][n] == order[n];
      }
    }
    SeenMonotone(pairs0, pairs);
    forall k, tier | k in order[..n + 1] ensures Covered(nm, ids, claims, pairs, k, tier) {
      if k != order[n] {
        assert k in order[..n];
        assert Covered(nm, ids, claims, pairs0, k, tier);
      }
    }
  }

  lemma SeenMonotone(pairs0: seq<Pair>, pairs: seq<Pair>)
    requires pairs0 <= pairs
    ensures Seen(pairs0) <= Seen(pairs)
  {
    assert forall i :: 0 <= i < |pairs0| ==> pairs0[i] == pairs[i];
  }

  // ----- the equivalence check ----------------------------------------------------------------

  datatype Verdict = Merge | Contests | Supersedes | Separate

  /** Polarity (under the markers of a kind), conditions and resolved argument order of a claim,
      taken as given. */
  datatype Language = Language(polarity: (string, string) -> nat, conditional: string -> bool,
                               arguments: Claim -> seq<string>)

  function Equivalent(lang: Language, a: Claim, b: Claim): Verdict {
    if lang.polarity(a.text, a.kind) % 2 != lang.polarity(b.text, a.kind) % 2 then Contests
    else if a.version != "" && b.version != "" && a.version != b.version then Supersedes
    else if lang.conditional(a.text) != lang.conditional(b.text) then Separate
    else if lang.arguments(a) != lang.arguments(b) then Separate
    else Merge
  }

  /** Opposite polarity contests; else two named versions supersede; else it is one claim exactly when both or
      neither are conditional and the arguments come in the same order. */
  lemma VerdictExactly(lang: Language, a: Claim, b: Claim)
    ensures var opposed := (lang.polarity(a.text, a.kind) + lang.polarity(b.text, a.kind)) % 2 == 1;
            var updated := a.version != "" && b.version != "" && a.version != b.version;
            var alike := lang.conditional(a.text) == lang.conditional(b.text) && lang.arguments(a) == lang.arguments(b);
            && (Equivalent(lang, a, b) == Contests <==> opposed)
            && (Equivalent(lang, a, b) == Supersedes <==> !opposed && updated)
            && (Equivalent(lang, a, b) == Merge <==> !opposed && !updated && alike)
    ensures a.kind == b.kind ==> Equivalent(lang, a, b) == Equivalent(lang, b, a)
  {
  }

  function VerdictOf(lang: Language, claims: Claims, p: Pair): Verdict {
    if p.a in claims && p.b in claims then Equivalent(lang, claims[p.a], claims[p.b]) else Separate
  }

  /** The pairs with a given verdict, in order. */
  function Judged(lang: Language, claims: Claims, pairs: seq<Pair>, v: Verdict): seq<IdPair> {
    if pairs == [] then []
    else
      var front := Judged(lang, claims, pairs[..|pairs| - 1], v);
      var p := pairs[|pairs| - 1];
      if VerdictOf(lang, claims, p) != v then front
      else if v == Supersedes then front + [OldToNew(claims, p)]
      else front + [(p.a, p.b)]
  }

  function OldToNew(claims: Claims, p: Pair): IdPair {
    if p.a in claims && p.b in claims && claims[p.a].version != claims[p.b].version
       && StringLeq(claims[p.a].version, claims[p.b].version)
    then (p.a, p.b) else (p.b, p.a)
  }

  lemma {:induction false} JudgedMember(lang: Language, claims: Claims, pairs: seq<Pair>, e: IdPair)
    requires e in Judged(lang, claims, pairs, Merge)
    ensures exists p :: p in pairs && (p.a, p.b) == e && VerdictOf(lang, claims, p) == Merge
  {
    var front, last := pairs[..|pairs| - 1], pairs[|pairs| - 1];
    if e in Judged(lang, claims, front, Merge) {
      JudgedMember(lang, claims, front, e);
      var p :| p in front && (p.a, p.b) == e && VerdictOf(lang, claims, p) == Merge;
      assert p in pairs;
    } else {
      assert last in pairs;
    }
  }

  /** e is the pair's ends as listed, but for a supersession the end of the smaller version first. */
  ghost predicate EndsOf(claims: Claims, p: Pair, v: Verdict, e: IdPair) {
    if v != Supersedes then e == (p.a, p.b)
    else
      && (e == (p.a, p.b) || e == (p.b, p.a)) && e.0 in claims && e.1 in claims
      && StringLeq(claims[e.0].version, claims[e.1].version) && claims[e.0].version != claims[e.1].version
  }

  lemma OldBeforeNew(lang: Language, claims: Claims, p: Pair)
    requires VerdictOf(lang, claims, p) == Supersedes
    ensures forall e :: EndsOf(claims, p, Supersedes, e) <==> e == OldToNew(claims, p)
  {
    StringLeqTotal(claims[p.a].version, claims[p.b].version);
  }

  /** The pairs listed under a verdict are exactly those the check gives it, and a supersession runs from the older
      claim to the newer. */
  lemma {:induction false} JudgedExactly(lang: Language, claims: Claims, pairs: seq<Pair>, v: Verdict, e: IdPair)
    requires forall p :: p in pairs ==> p.a in claims && p.b in claims
    ensures e in Judged(lang, claims, pairs, v) <==>
            exists p :: p in pairs && Equivalent(lang, claims[p.a], claims[p.b]) == v && EndsOf(claims, p, v, e)
  {
    if pairs != [] {
      var front, last := pairs[..|pairs| - 1], pairs[|pairs| - 1];
      JudgedExactly(lang, claims, front, v, e);
      if VerdictOf(lang, claims, last) == Supersedes {
        OldBeforeNew(lang, claims, last);
      }
      assert forall p :: p in pairs <==> p in front || p == last;
    }
  }

  lemma JudgedNext(lang: Language, claims: Claims, pairs: seq<Pair>, p: Pair, v: Verdict)
    ensures Judged(lang, claims, pairs + [p], v)
         == if VerdictOf(lang, claims, p) != v then Judged(lang, claims, pairs, v)
            else Judged(lang, claims, pairs, v) + [if v == Supersedes then OldToNew(claims, p) else (p.a, p.b)]
  {
    assert (pairs + [p])[..|pairs|] == pairs;
  }

  /** What judging these pairs has made of the forest's classes, the lists and the counts. */
  ghost predicate Resolved(lang: Language, claims: Claims, pairs: seq<Pair>, rep: Reps<ClaimId>,
                           contests: seq<IdPair>, supersedes: seq<IdPair>, nMerged: nat, nSeparate: nat)
  {
    && rep == JoinedAll(Judged(lang, claims, pairs, Merge))
    && contests == Judged(lang, claims, pairs, Contests)
    && supersedes == Judged(lang, claims, pairs, Supersedes)
    && nMerged == |Judged(lang, claims, pairs, Merge)|
    && nMerged + nSeparate + |contests| + |supersedes| == |pairs|
  }

  lemma ResolveStep(lang: Language, claims: Claims, pairs: seq<Pair>, rep: Reps<ClaimId>,
                    contests: seq<IdPair>, supersedes: seq<IdPair>, nMerged: nat, nSeparate: nat, p: Pair)
    requires Resolved(lang, claims, pairs, rep, contests, supersedes, nMerged, nSeparate)
    ensures match VerdictOf(lang, claims, p)
            case Merge => Resolved(lang, claims, pairs + [p], Joined(rep, p.a, p.b), contests, supersedes, nMerged + 1,
                                   nSeparate)
            case Contests => Resolved(lang, claims, pairs + [p], rep, contests + [(p.a, p.b)], supersedes, nMerged,
                                      nSeparate)
            case Supersedes => Resolved(lang, claims, pairs + [p], rep, contests, supersedes + [OldToNew(claims, p)],
                                        nMerged, nSeparate)
            case Separate => Resolved(lang, claims, pairs + [p], rep, contests, supersedes, nMerged, nSeparate + 1)
  {
    JudgedNext(lang, claims, pairs, p, Merge);
    JudgedNext(lang, claims, pairs, p, Contests);
    JudgedNext(lang, claims, pairs, p, Supersedes);
    var links := Judged(lang, claims, pairs, Merge);
    assert (links + [(p.a, p.b)])[..|links|] == links;
  }

  // ----- classes ----------------------------------------------------------------------------

  datatype Group = Group(root: ClaimId, members: seq<ClaimId>)

  function RootIn(rep: Reps<ClaimId>): ClaimId -> Option<ClaimId> {
    (x: ClaimId) => if x in rep then Some(rep[x]) else None
  }

  /** The members of a class, in table order. */
  function ClassOf(ids: seq<ClaimId>, rep: Reps<ClaimId>, root: ClaimId): seq<ClaimId> {
    Keyed(ids, RootIn(rep), Some(root))
  }

  /** merged lists exactly the classes of more than one claim, each under its root. */
  ghost predicate MergedOk(ids: seq<ClaimId>, rep: Reps<ClaimId>, merged: seq<Group>) {
    && (forall i, j :: 0 <= i < j < |merged| ==> merged[i].root != merged[j].root)
    && (forall g :: g in merged ==> |g.members| > 1 && g.members == ClassOf(ids, rep, g.root))
    && (forall x :: x in ids && x in rep && |ClassOf(ids, rep, rep[x])| > 1 ==>
        exists g :: g in merged && g.root == rep[x])
  }

  /** Runs the check over the nominations: what passes is unioned, the rest becomes links. */
  method ResolvePairs(lang: Language, ids: seq<ClaimId>, claims: Claims, pairs: seq<Pair>)
    returns (merged: seq<Group>, contests: seq<IdPair>, supersedes: seq<IdPair>, nMerged: nat, nSeparate: nat)
    requires Distinct(ids)
    ensures contests == Judged(lang, claims, pairs, Contests) && supersedes == Judged(lang, claims, pairs, Supersedes)
    ensures nMerged + nSeparate + |contests| + |supersedes| == |pairs|
    ensures nMerged == |Judged(lang, claims, pairs, Merge)|
    ensures MergedOk(ids, JoinedAll(Judged(lang, claims, pairs, Merge)), merged)
  {
    var uf := new UnionFind<ClaimId>();
    contests, supersedes, nMerged, nSeparate := [], [], 0, 0;
    assert pairs[..0] == [];
    for n := 0 to |pairs|
      invariant uf.Valid() && fresh(uf)
      invariant Resolved(lang, claims, pairs[..n], uf.rep, contests, supersedes, nMerged, nSeparate)
    {
      var p := pairs[n];
      assert pairs[..n + 1] == pairs[..n] + [p];
      ResolveStep(lang, claims, pairs[..n], uf.rep, contests, supersedes, nMerged, nSeparate, p);
      match VerdictOf(lang, claims, p) {
        case Merge =>
          uf.Union(p.a, p.b);
          nMerged := nMerged + 1;
        case Contests =>
          contests := contests + [(p.a, p.b)];
        case Supersedes =>
          supersedes := supersedes + [OldToNew(claims, p)];
        case Separate =>
          nSeparate := nSeparate + 1;
      }
    }
    assert pairs[..|pairs|] == pairs;
    merged := Classes(uf, ids);
  }

  /** uf.find for every claim the union-find has seen. */
  method RootsOf(uf: UnionFind<ClaimId>, ids: seq<ClaimId>) returns (roots: map<ClaimId, ClaimId>)
    requires uf.Valid()
    modifies uf
    ensures roots == map x | x in ids && x in old(uf.rep) :: old(uf.rep)[x]
  {
    ghost var rep := uf.rep;
    roots := map[];
    for n := 0 to |ids|
      invariant uf.Valid() && uf.rep == rep
      invariant roots == map x | x in ids[..n] && x in rep :: rep[x]
    {
      assert ids[..n + 1] == ids[..n] + [ids[n]];
      if ids[n] in uf.p {
        var r := uf.Find(ids[n]);
        roots := roots[ids[n] := r];
      }
    }
    assert ids[..|ids|] == ids;
  }

  method Classes(uf: UnionFind<ClaimId>, ids: seq<ClaimId>) returns (merged: seq<Group>)
    requires uf.Valid() && Distinct(ids)
    modifies uf
    ensures MergedOk(ids, old(uf.rep), merged)
  {
    ghost var rep := uf.rep;
    var roots := RootsOf(uf, ids);
    var order, groups := GroupBy(ids, RootIn(roots));
    forall k | k in order && k.Some? ensures groups[k] == ClassOf(ids, rep, k.value) {
      SameKeys(ids, RootIn(roots), RootIn(rep), k);
    }
    merged := LargeGroups(order, groups);
    forall x | x in ids && x in rep && |ClassOf(ids, rep, rep[x])| > 1
      ensures exists g :: g in merged && g.root == rep[x]
    {
      assert RootIn(roots)(x) == Some(rep[x]);
    }
  }

  /** Only classes of more than one claim are merged. */
  method LargeGroups(order: seq<Option<ClaimId>>, groups: map<Option<ClaimId>, seq<ClaimId>>)
    returns (merged: seq<Group>)
    requires Distinct(order) && forall k :: k in order ==> k in groups
    ensures forall i, j :: 0 <= i < j < |merged| ==> merged[i].root != merged[j].root
    ensures forall g :: g in merged ==> Some(g.root) in order && |g.members| > 1 && g.members == groups[Some(g.root)]
    ensures forall k :: k in order && k.Some? && |groups[k]| > 1 ==> exists g :: g in merged && Some(g.root) == k
  {
    merged := [];
    for n := 0 to |order|
      invariant forall i, j :: 0 <= i < j < |merged| ==> merged[i].root != merged[j].root
      invariant forall g :: g in merged ==>
                Some(g.root) in order[..n] && |g.members| > 1 && g.members == groups[Some(g.root)]
      invariant forall i :: 0 <= i < n && order[i].Some? && |groups[order[i]]| > 1 ==>
                exists g :: g in merged && Some(g.root) == order[i]
    {
      var k := order[n];
      assert order[..n + 1] == order[..n] + [k];
      if k.Some? && |groups[k]| > 1 {
        forall i | 0 <= i < |merged| ensures merged[i].root != k.value {
          assert merged[i] in merged;
        }
        ghost var before := merged;
        merged := merged + [Group(k.value, groups[k])];
        assert merged[|before|] in merged;
        assert forall g :: g in before ==> g in merged;
      }
    }
    assert order[..|order|] == order;
  }

  lemma {:induction false} SameKeys<K>(ids: seq<ClaimId>, f: ClaimId -> K, g: ClaimId -> K, k: K)
    requires forall x :: x in ids ==> f(x) == g(x)
    ensures Keyed(ids, f, k) == Keyed(ids, g, k)
  {
    if ids != [] {
      var front, last := ids[..|ids| - 1], ids[|ids| - 1];
      assert ids == front + [last];
      SameKeys(front, f, g, k);
      KeyedAppend(front, f, k, last);
      KeyedAppend(front, g, k, last);
    }
  }

  /** Two different claims end in one group exactly when merge verdicts connect them. */
  lemma MergedAreClasses(lang: Language, ids: seq<ClaimId>, claims: Claims, pairs: seq<Pair>, merged: seq<Group>,
                         a: ClaimId, b: ClaimId)
    requires Distinct(ids) && a in ids && b in ids && a != b
    requires MergedOk(ids, JoinedAll(Judged(lang, claims, pairs, Merge)), merged)
    ensures (exists g :: g in merged && a in g.members && b in g.members)
       <==> Connected(Judged(lang, claims, pairs, Merge), a, b)
  {
    var links := Judged(lang, claims, pairs, Merge);
    var rep := JoinedAll(links);
    if Connected(links, a, b) {
      if a !in rep {
        UnseenAlone(links, a, b);
      } else if b !in rep {
        ConnectedSymmetric(links, a, b);
        UnseenAlone(links, b, a);
      } else {
        ClosureTheorem(links, a, b);
        var members := ClassOf(ids, rep, rep[a]);
        KeyedElems(ids, RootIn(rep), Some(rep[a]));
        var i, j := Positions(members, a, b);
        var g :| g in merged && g.root == rep[a];
        assert a in g.members && b in g.members;
      }
    }
    if exists g :: g in merged && a in g.members && b in g.members {
      var g :| g in merged && a in g.members && b in g.members;
      KeyedElems(ids, RootIn(rep), Some(g.root));
      ClosureTheorem(links, a, b);
    }
  }

  /** The root is one of its members, and the whole group lies in one block, removals excluded. */
  lemma GroupInOneBlock(nm: Nominator, lang: Language, ids: seq<ClaimId>, claims: Claims, pairs: seq<Pair>,
                        merged: seq<Group>, g: Group)
    requires Distinct(ids)
    requires forall p :: p in pairs ==> PairOk(nm, ids, claims, p)
    requires MergedOk(ids, JoinedAll(Judged(lang, claims, pairs, Merge)), merged)
    requires g in merged
    ensures g.root in g.members && Distinct(g.members)
    ensures forall x :: x in g.members ==> x in ids && x in claims && x.Folded?
    ensures forall x :: x in g.members ==> BlockKey(claims[x]) == BlockKey(claims[g.root])
  {
    var links := Judged(lang, claims, pairs, Merge);
    var rep := JoinedAll(links);
    KeyedElems(ids, RootIn(rep), Some(g.root));
    var related := (u: ClaimId, v: ClaimId) =>
      u == v || (u.Folded? && v.Folded? && u in ids && v in ids && u in claims && v in claims
                 && BlockKey(claims[u]) == BlockKey(claims[v]));
    forall e | e in links ensures related(e.0, e.1) {
      JudgedMember(lang, claims, pairs, e);
      var p :| p in pairs && (p.a, p.b) == e && VerdictOf(lang, claims, p) == Merge;
    }
    forall x | x in g.members ensures related(x, g.root) {
      JoinedAllKeys(links, x);
      assert g.root in rep && rep[g.root] == g.root;
      ClosureTheorem(links, x, g.root);
      ConnectedIsSmallest(links, related, x, g.root);
    }
    var x, y := g.members[0], g.members[1];
    assert x in g.members && y in g.members;
    var other := if x == g.root then y else x;
    assert other in g.members && other != g.root && related(other, g.root);
    JoinedAllKeys(links, other);
    assert RootIn(rep)(g.root) == Some(g.root);
  }
}
