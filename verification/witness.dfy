/** The LLM witness (assoc/witness.py): the worklist of chunk groups that is split in place on
    failure, the anchoring of facts, and the fallback that keeps a refusal from losing facts. */
module Witnessing {
  import opened Common
  import Folding

  type ChunkId = Folding.ChunkId

  datatype Unit = Unit(chunk: ChunkId, text: string)

  datatype Anchor = Unanchored | Exact | Moved | Inferred

  /** A protocol fact. `number` is the chunk number the model wrote, if any; `fallback` names the
      witness an old fact was taken over from. */
  datatype Fact = Fact(text: string, number: Option<int>, chunk: Option<ChunkId>, grounded: bool, anchor: Anchor,
                       fallback: Option<string>)

  // ----- groups ------------------------------------------------------------------------------

  function Flatten(groups: seq<seq<nat>>): seq<nat> {
    if groups == [] then [] else Flatten(groups[..|groups| - 1]) + groups[|groups| - 1]
  }

  function Upto(n: nat): seq<nat> {
    seq(n, i => i)
  }

  ghost predicate NonEmpty(groups: seq<seq<nat>>) {
    forall i :: 0 <= i < |groups| ==> groups[i] != []
  }

  /** An in-order partition of all n indices into non-empty groups. */
  ghost predicate Partition(groups: seq<seq<nat>>, n: nat) {
    Flatten(groups) == Upto(n) && NonEmpty(groups)
  }

  const CHUNK_OVERHEAD := 80

  /** What a group costs of the extraction window. */
  function Cost(units: seq<Unit>, group: seq<nat>): nat {
    if group == [] then 0
    else
      var last := group[|group| - 1];
      Cost(units, group[..|group| - 1]) + (if last < |units| then |units[last].text| else 0) + CHUNK_OVERHEAD
  }

  ghost predicate Fits(units: seq<Unit>, group: seq<nat>, window: int) {
    |group| == 1 || Cost(units, group) <= window
  }

  ghost predicate AllFit(units: seq<Unit>, groups: seq<seq<nat>>, window: int) {
    forall i :: 0 <= i < |groups| ==> Fits(units, groups[i], window)
  }

  /** The next index would not have fitted the group. */
  ghost predicate Full(units: seq<Unit>, group: seq<nat>, next: nat, window: int) {
    next < |units| && Cost(units, group) + |units[next].text| + CHUNK_OVERHEAD > window
  }

  /** No group was closed before it had to be: the first chunk of the next one did not fit. */
  ghost predicate Greedy(units: seq<Unit>, groups: seq<seq<nat>>, window: int) {
    forall i :: 0 <= i < |groups| - 1 && groups[i + 1] != [] ==> Full(units, groups[i], groups[i + 1][0], window)
  }

  lemma FlattenAppend(groups: seq<seq<nat>>, g: seq<nat>)
    ensures Flatten(groups + [g]) == Flatten(groups) + g
  {
    assert (groups + [g])[..|groups|] == groups;
  }

  ghost predicate Cut(units: seq<Unit>, window: int, groups: seq<seq<nat>>, cur: seq<nat>, i: nat) {
    && Flatten(groups) + cur == Upto(i) && NonEmpty(groups)
    && (cur != [] ==> Fits(units, cur, window))
    && (i > 0 ==> cur != [])
    && (forall x :: 0 <= x < |groups| ==> Fits(units, groups[x], window))
    && Greedy(units, if cur == [] then groups else groups + [cur], window)
  }

  ghost predicate Cutting(units: seq<Unit>, window: int, groups: seq<seq<nat>>, cur: seq<nat>, size: nat, i: nat) {
    Cut(units, window, groups, cur, i) && size == Cost(units, cur)
  }

  lemma CutStart(units: seq<Unit>, window: int)
    ensures Cutting(units, window, [], [], 0, 0)
  {
  }

  lemma CutClose(units: seq<Unit>, window: int, groups: seq<seq<nat>>, cur: seq<nat>, i: nat)
    requires Cut(units, window, groups, cur, i) && cur != []
    ensures Flatten(groups + [cur]) == Upto(i) && NonEmpty(groups + [cur])
    ensures Greedy(units, groups + [cur], window)
    ensures forall x :: 0 <= x < |groups + [cur]| ==> Fits(units, (groups + [cur])[x], window)
  {
    FlattenAppend(groups, cur);
  }

  lemma CostAppend(units: seq<Unit>, g: seq<nat>, i: nat)
    requires i < |units|
    ensures Cost(units, g + [i]) == Cost(units, g) + |units[i].text| + CHUNK_OVERHEAD
  {
    assert (g + [i])[..|g|] == g;
  }

  lemma UptoAppend(a: seq<nat>, b: seq<nat>, i: nat)
    requires a + b == Upto(i)
    ensures a + (b + [i]) == Upto(i + 1)
  {
    assert a + (b + [i]) == (a + b) + [i];
  }

  lemma CutExtend(units: seq<Unit>, window: int, groups: seq<seq<nat>>, cur: seq<nat>, i: nat)
    requires i < |units| && Flatten(groups) + cur == Upto(i) && NonEmpty(groups)
    requires forall x :: 0 <= x < |groups| ==> Fits(units, groups[x], window)
    requires cur != [] ==> Cost(units, cur) + |units[i].text| + CHUNK_OVERHEAD <= window
    requires Greedy(units, groups + [cur + [i]], window)
    ensures Cut(units, window, groups, cur + [i], i + 1)
  {
    CostAppend(units, cur, i);
    UptoAppend(Flatten(groups), cur, i);
  }

  /** The next chunk joins the current group, or closes it and starts another. */
  method TakeUnit(units: seq<Unit>, window: int, groups0: seq<seq<nat>>, cur0: seq<nat>, size0: nat, i: nat)
    returns (groups: seq<seq<nat>>, cur: seq<nat>, size: nat)
    requires i < |units| && Cutting(units, window, groups0, cur0, size0, i)
    ensures Cutting(units, window, groups, cur, size, i + 1)
  {
    groups, cur, size := groups0, cur0, size0;
    var n := |units[i].text| + CHUNK_OVERHEAD;
    CutStep(units, window, groups, cur, size, i);
    if cur != [] && size + n > window {
      groups := groups + [cur];
      cur, size := [], 0;
    }
    cur := cur + [i];
    size := size + n;
  }

  /** Cuts the primaries, in order, into groups that are a single chunk or fit the window. */
  method Groups(units: seq<Unit>, window: int) returns (groups: seq<seq<nat>>)
    ensures Partition(groups, |units|)
    ensures AllFit(units, groups, window) && Greedy(units, groups, window)
  {
    groups := [];
    var cur: seq<nat>, size: nat := [], 0;
    CutStart(units, window);
    for i := 0 to |units|
      invariant Cutting(units, window, groups, cur, size, i)
    {
      groups, cur, size := TakeUnit(units, window, groups, cur, size, i);
    }
    CutEnd(units, window, groups, cur);
    if cur != [] {
      groups := groups + [cur];
    }
  }

  lemma CutStep(units: seq<Unit>, window: int, groups: seq<seq<nat>>, cur: seq<nat>, size: nat, i: nat)
    requires i < |units| && Cutting(units, window, groups, cur, size, i)
    ensures var n := |units[i].text| + CHUNK_OVERHEAD;
            if cur != [] && size + n > window then Cutting(units, window, groups + [cur], [] + [i], 0 + n, i + 1)
            else Cutting(units, window, groups, cur + [i], size + n, i + 1)
  {
    CostAppend(units, cur, i);
    CostAppend(units, [], i);
    if cur != [] && Cost(units, cur) + |units[i].text| + CHUNK_OVERHEAD > window {
      CutClose(units, window, groups, cur, i);
      assert Flatten(groups + [cur]) + [] == Flatten(groups + [cur]);
      GreedyNext(units, groups + [cur], i, window);
      CutExtend(units, window, groups + [cur], [], i);
    } else {
      if cur == [] {
        NoMoreGroupsThanIndices(groups);
      }
      GreedyWider(units, groups, cur, i, window);
      CutExtend(units, window, groups, cur, i);
    }
  }

  lemma GreedyNext(units: seq<Unit>, groups: seq<seq<nat>>, i: nat, window: int)
    requires Greedy(units, groups, window) && groups != [] && Full(units, groups[|groups| - 1], i, window)
    ensures Greedy(units, groups + [[] + [i]], window)
  {
  }

  lemma GreedyWider(units: seq<Unit>, groups: seq<seq<nat>>, cur: seq<nat>, i: nat, window: int)
    requires NonEmpty(groups) && if cur == [] then groups == [] else Greedy(units, groups + [cur], window)
    ensures Greedy(units, groups + [cur + [i]], window)
  {
    var was, now := groups + [cur], groups + [cur + [i]];
    forall x | 0 <= x < |now| - 1 && now[x + 1] != [] ensures Full(units, now[x], now[x + 1][0], window) {
      assert was[x] == now[x] && was[x + 1] != [] && was[x + 1][0] == now[x + 1][0];
    }
  }

  lemma CutEnd(units: seq<Unit>, window: int, groups: seq<seq<nat>>, cur: seq<nat>)
    requires Cut(units, window, groups, cur, |units|)
    ensures Partition(if cur != [] then groups + [cur] else groups, |units|)
    ensures AllFit(units, if cur != [] then groups + [cur] else groups, window)
    ensures Greedy(units, if cur != [] then groups + [cur] else groups, window)
  {
    if cur != [] {
      CutClose(units, window, groups, cur, |units|);
    } else {
      assert Flatten(groups) + cur == Flatten(groups);
    }
  }

  // ----- splitting a group in place -----------------------------------------------------------

  function Halves(g: seq<nat>): seq<seq<nat>> {
    [g[..|g| / 2], g[|g| / 2..]]
  }

  function SplitAt(groups: seq<seq<nat>>, gi: nat): seq<seq<nat>>
    requires gi < |groups|
  {
    groups[..gi] + Halves(groups[gi]) + groups[gi + 1..]
  }

  lemma {:induction false} FlattenConcat(a: seq<seq<nat>>, b: seq<seq<nat>>)
    ensures Flatten(a + b) == Flatten(a) + Flatten(b)
  {
    if b == [] {
      assert a + b == a;
    } else {
      assert (a + b)[..|a + b| - 1] == a + b[..|b| - 1];
      FlattenConcat(a, b[..|b| - 1]);
    }
  }

  /** The halves of a group differ by one chunk at most, the second being the larger. */
  lemma HalvesEven(g: seq<nat>)
    ensures var h := Halves(g);
            |h| == 2 && |h[0]| + |h[1]| == |g| && |h[0]| <= |h[1]| <= |h[0]| + 1
  {
  }

  /** Halving a group leaves what the groups hold, in order. */
  lemma HalvesFlatten(g: seq<nat>)
    ensures Flatten(Halves(g)) == g && Flatten([g]) == g
  {
    var a, b := g[..|g| / 2], g[|g| / 2..];
    FlattenAppend([], g);
    FlattenAppend([], a);
    FlattenAppend([a], b);
    assert [] + [g] == [g] && [] + [a] == [a] && [a] + [b] == Halves(g) && a + b == g;
  }

  lemma ReplaceFlatten(before: seq<seq<nat>>, was: seq<seq<nat>>, now: seq<seq<nat>>, after: seq<seq<nat>>)
    requires Flatten(was) == Flatten(now)
    ensures Flatten(before + was + after) == Flatten(before + now + after)
  {
    FlattenConcat(before + was, after);
    FlattenConcat(before, was);
    FlattenConcat(before + now, after);
    FlattenConcat(before, now);
  }

  lemma SplitNonEmpty(groups: seq<seq<nat>>, gi: nat)
    requires gi < |groups| && NonEmpty(groups) && |groups[gi]| > 1
    ensures NonEmpty(SplitAt(groups, gi)) && |SplitAt(groups, gi)| == |groups| + 1
  {
    var split := SplitAt(groups, gi);
    forall i | 0 <= i < |split| ensures split[i] != [] {
      if i < gi {
        assert split[i] == groups[i];
      } else if i > gi + 1 {
        assert split[i] == groups[i - 1];
      }
    }
  }

  lemma SplitKeepsPartition(groups: seq<seq<nat>>, gi: nat, n: nat)
    requires gi < |groups| && Partition(groups, n) && |groups[gi]| > 1
    ensures Partition(SplitAt(groups, gi), n) && |SplitAt(groups, gi)| == |groups| + 1
  {
    assert groups == groups[..gi] + [groups[gi]] + groups[gi + 1..];
    HalvesFlatten(groups[gi]);
    ReplaceFlatten(groups[..gi], [groups[gi]], Halves(groups[gi]), groups[gi + 1..]);
    SplitNonEmpty(groups, gi);
  }

  lemma {:induction false} NoMoreGroupsThanIndices(groups: seq<seq<nat>>)
    requires NonEmpty(groups)
    ensures |groups| <= |Flatten(groups)|
  {
    if groups != [] {
      var front := groups[..|groups| - 1];
      assert forall i :: 0 <= i < |front| ==> front[i] == groups[i];
      NoMoreGroupsThanIndices(front);
      assert groups[|groups| - 1] != [];
    }
  }

  lemma FlattenHead(groups: seq<seq<nat>>, i: nat)
    requires i <= |groups|
    ensures Flatten(groups[..i]) <= Flatten(groups)
  {
    var head, tail := groups[..i], groups[i..];
    assert groups == head + tail;
    FlattenConcat(head, tail);
  }

  lemma FlattenNext(groups: seq<seq<nat>>, i: nat)
    requires i < |groups|
    ensures Flatten(groups[..i + 1]) == Flatten(groups[..i]) + groups[i]
  {
    var before := groups[..i];
    FlattenAppend(before, groups[i]);
    assert groups[..i + 1] == before + [groups[i]];
  }

  lemma FlattenGrows(groups: seq<seq<nat>>, i: nat, j: nat)
    requires i < j <= |groups|
    ensures |Flatten(groups[..i])| + |groups[i]| <= |Flatten(groups[..j])|
  {
    FlattenNext(groups, i);
    assert groups[..j] == groups[..i + 1] + groups[i + 1..j];
    FlattenConcat(groups[..i + 1], groups[i + 1..j]);
  }

  /** In an in-order partition an index is its own place among all. */
  lemma IndexAt(groups: seq<seq<nat>>, n: nat, i: nat, p: nat)
    requires Partition(groups, n) && i < |groups| && p < |groups[i]|
    ensures groups[i][p] == |Flatten(groups[..i])| + p < n
  {
    FlattenNext(groups, i);
    FlattenHead(groups, i + 1);
    var front, all := Flatten(groups[..i + 1]), Flatten(groups);
    assert front[|Flatten(groups[..i])| + p] == groups[i][p];
    assert all[..|front|] == front;
  }

  /** In an in-order partition everything in an earlier group precedes everything in a later one. */
  lemma EarlierPrecedes(groups: seq<seq<nat>>, n: nat, i: nat, j: nat, x: nat, y: nat)
    requires Partition(groups, n) && i < j < |groups| && x in groups[i] && y in groups[j]
    ensures x < y < n
  {
    var p :| 0 <= p < |groups[i]| && groups[i][p] == x;
    var q :| 0 <= q < |groups[j]| && groups[j][q] == y;
    IndexAt(groups, n, i, p);
    IndexAt(groups, n, j, q);
    FlattenGrows(groups, i, j);
  }

  // ----- anchoring and grounding ---------------------------------------------------------------

  const GROUND_MIN_OVERLAP := 0.3

  /** The better of the lemma and the cell overlap of a fact with a chunk, taken as given. */
  type Overlap = (Fact, Unit) -> real

  ghost predicate OverlapOk(overlap: Overlap) {
    forall f, u :: overlap(f, u) >= 0.0
  }

  ghost predicate InUnits(units: seq<Unit>, idxs: seq<nat>) {
    forall x :: 0 <= x < |idxs| ==> idxs[x] < |units|
  }

  /** i is the first index of the group whose chunk overlaps the fact most. */
  ghost predicate IsBest(f: Fact, units: seq<Unit>, idxs: seq<nat>, overlap: Overlap, m: nat) {
    && m < |idxs| && InUnits(units, idxs)
    && (forall x :: 0 <= x < |idxs| ==> overlap(f, units[idxs[x]]) <= overlap(f, units[idxs[m]]))
    && (forall x :: 0 <= x < m ==> overlap(f, units[idxs[x]]) < overlap(f, units[idxs[m]]))
  }

  /** Where a fact of a group ends up: on the chunk it names unless only another chunk grounds it,
      on the best chunk if it names none of the group. */
  ghost predicate Anchored(f: Fact, g: Fact, units: seq<Unit>, idxs: seq<nat>, overlap: Overlap) {
    exists m: nat :: IsBest(f, units, idxs, overlap, m) && g == AnchorAt(f, units, idxs, overlap, idxs[m])
  }

  predicate NamesOneOf(f: Fact, idxs: seq<nat>) {
    f.number.Some? && f.number.value >= 1 && f.number.value - 1 in idxs
  }

  /** The named chunk would fail the grounding check and another one passes it. */
  predicate Misplaced(f: Fact, units: seq<Unit>, overlap: Overlap, named: nat, best: nat)
    requires named < |units| && best < |units|
  {
    overlap(f, units[named]) < GROUND_MIN_OVERLAP && overlap(f, units[best]) >= GROUND_MIN_OVERLAP && best != named
  }

  function AnchorKind(f: Fact, units: seq<Unit>, idxs: seq<nat>, overlap: Overlap, best: nat): (a: Anchor)
    requires best < |units| && InUnits(units, idxs)
    ensures a != Unanchored
  {
    if !NamesOneOf(f, idxs) then Inferred
    else if Misplaced(f, units, overlap, f.number.value - 1, best) then Moved
    else Exact
  }

  function AnchorAt(f: Fact, units: seq<Unit>, idxs: seq<nat>, overlap: Overlap, best: nat): Fact
    requires best < |units| && InUnits(units, idxs)
  {
    var how := AnchorKind(f, units, idxs, overlap, best);
    var unit := if how == Exact then units[f.number.value - 1] else units[best];
    f.(number := None, chunk := Some(unit.chunk), anchor := how, grounded := overlap(f, unit) >= GROUND_MIN_OVERLAP)
  }

  /** The fact is anchored to a chunk of the group. */
  ghost predicate SitsIn(g: Fact, units: seq<Unit>, idxs: seq<nat>) {
    exists i :: i in idxs && i < |units| && g.chunk == Some(units[i].chunk)
  }

  ghost predicate Grounds(f: Fact, units: seq<Unit>, overlap: Overlap, i: nat) {
    i < |units| && overlap(f, units[i]) >= GROUND_MIN_OVERLAP
  }

  lemma BestIsBest(f: Fact, units: seq<Unit>, idxs: seq<nat>, overlap: Overlap, m: nat, i: nat)
    requires IsBest(f, units, idxs, overlap, m) && i in idxs
    ensures i < |units| && overlap(f, units[i]) <= overlap(f, units[idxs[m]])
  {
    var x :| 0 <= x < |idxs| && idxs[x] == i;
  }

  /** The anchored fact sits on a chunk of its own group, and it is grounded exactly when some
      chunk of the group grounds it: a wrong number never costs a fact its grounding. */
  lemma AnchoredInGroup(f: Fact, g: Fact, units: seq<Unit>, idxs: seq<nat>, overlap: Overlap)
    requires Anchored(f, g, units, idxs, overlap)
    ensures SitsIn(g, units, idxs)
    ensures g.grounded <==> exists i :: i in idxs && Grounds(f, units, overlap, i)
    ensures g.fallback == f.fallback && g.text == f.text
  {
    var m: nat :| IsBest(f, units, idxs, overlap, m) && g == AnchorAt(f, units, idxs, overlap, idxs[m]);
    var at := AnchorPlace(f, units, idxs, overlap, m);
    if g.grounded {
      assert Grounds(f, units, overlap, at);
    }
    if i: nat :| i in idxs && Grounds(f, units, overlap, i) {
      BestIsBest(f, units, idxs, overlap, m, i);
    }
  }

  /** Only number, chunk, anchor and grounding of a fact are touched. */
  ghost predicate SameFact(f: Fact, g: Fact) {
    g == f.(number := g.number, chunk := g.chunk, anchor := g.anchor, grounded := g.grounded) && g.number == None
  }

  /** A fact that names chunk i of its group stays there, unless another chunk of the group grounds it and i does
      not. */
  lemma NamedStays(f: Fact, g: Fact, units: seq<Unit>, idxs: seq<nat>, overlap: Overlap, i: nat)
    requires Anchored(f, g, units, idxs, overlap) && f.number == Some(i + 1) && i in idxs
    requires Grounds(f, units, overlap, i) || forall j :: j in idxs ==> !Grounds(f, units, overlap, j)
    ensures SameFact(f, g) && g.anchor == Exact && i < |units| && g.chunk == Some(units[i].chunk)
  {
    var m: nat :| IsBest(f, units, idxs, overlap, m) && g == AnchorAt(f, units, idxs, overlap, idxs[m]);
    BestIsBest(f, units, idxs, overlap, m, i);
    assert idxs[m] in idxs;
    assert Grounds(f, units, overlap, idxs[m]) ==> Grounds(f, units, overlap, i);
  }

  /** In that case it is moved to the first chunk of the group that overlaps it most. */
  lemma NamedMoves(f: Fact, g: Fact, units: seq<Unit>, idxs: seq<nat>, overlap: Overlap, i: nat, j: nat)
    requires Anchored(f, g, units, idxs, overlap) && f.number == Some(i + 1) && i in idxs
    requires !Grounds(f, units, overlap, i) && j in idxs && Grounds(f, units, overlap, j)
    ensures SameFact(f, g) && g.anchor == Moved && g.grounded
    ensures exists m: nat :: IsBest(f, units, idxs, overlap, m) && g.chunk == Some(units[idxs[m]].chunk)
  {
    var m: nat :| IsBest(f, units, idxs, overlap, m) && g == AnchorAt(f, units, idxs, overlap, idxs[m]);
    BestIsBest(f, units, idxs, overlap, m, i);
    BestIsBest(f, units, idxs, overlap, m, j);
  }

  /** A fact that names no chunk of its group is inferred to belong to that chunk. */
  lemma UnnamedInferred(f: Fact, g: Fact, units: seq<Unit>, idxs: seq<nat>, overlap: Overlap)
    requires Anchored(f, g, units, idxs, overlap) && forall i :: i in idxs ==> f.number != Some(i + 1)
    ensures SameFact(f, g) && g.anchor == Inferred
    ensures exists m: nat :: IsBest(f, units, idxs, overlap, m) && g.chunk == Some(units[idxs[m]].chunk)
  {
    var m: nat :| IsBest(f, units, idxs, overlap, m) && g == AnchorAt(f, units, idxs, overlap, idxs[m]);
  }

  /** Where the fact is anchored, and that it grounds there if the best chunk does. */
  lemma AnchorPlace(f: Fact, units: seq<Unit>, idxs: seq<nat>, overlap: Overlap, m: nat) returns (at: nat)
    requires IsBest(f, units, idxs, overlap, m)
    ensures at in idxs && at < |units| && AnchorAt(f, units, idxs, overlap, idxs[m]).chunk == Some(units[at].chunk)
    ensures AnchorAt(f, units, idxs, overlap, idxs[m]).grounded <==> Grounds(f, units, overlap, at)
    ensures Grounds(f, units, overlap, idxs[m]) ==> Grounds(f, units, overlap, at)
  {
    var best := idxs[m];
    at := if AnchorKind(f, units, idxs, overlap, best) == Exact then f.number.value - 1 else best;
  }

  datatype Counts = Counts(exact: nat, inferred: nat, moved: nat, ungrounded: nat)

  method BestUnit(f: Fact, units: seq<Unit>, idxs: seq<nat>, overlap: Overlap) returns (m: nat)
    requires idxs != [] && OverlapOk(overlap) && InUnits(units, idxs)
    ensures IsBest(f, units, idxs, overlap, m)
  {
    var bestOv := -1.0;
    m := 0;
    for x := 0 to |idxs|
      invariant bestOv == -1.0 <==> x == 0
      invariant x > 0 ==> m < x && bestOv == overlap(f, units[idxs[m]])
      invariant forall y :: 0 <= y < x ==> overlap(f, units[idxs[y]]) <= bestOv
      invariant x > 0 ==> forall y :: 0 <= y < m ==> overlap(f, units[idxs[y]]) < bestOv
    {
      var ov := overlap(f, units[idxs[x]]);
      if ov > bestOv {
        m, bestOv := x, ov;
      }
    }
  }

  function Among(facts: seq<Fact>, p: Fact -> bool): nat {
    if facts == [] then 0 else Among(facts[..|facts| - 1], p) + if p(facts[|facts| - 1]) then 1 else 0
  }

  function Plus(c: Counts, g: Fact): Counts {
    Counts(c.exact + if g.anchor == Exact then 1 else 0, c.inferred + if g.anchor == Inferred then 1 else 0,
           c.moved + if g.anchor == Moved then 1 else 0, c.ungrounded + if g.grounded then 0 else 1)
  }

  function Counted(out: seq<Fact>): Counts {
    if out == [] then Counts(0, 0, 0, 0) else Plus(Counted(out[..|out| - 1]), out[|out| - 1])
  }

  /** Each count is the number of facts of its kind. */
  lemma {:induction false} CountedExactly(out: seq<Fact>)
    ensures Counted(out).exact == Among(out, (g: Fact) => g.anchor == Exact)
    ensures Counted(out).inferred == Among(out, (g: Fact) => g.anchor == Inferred)
    ensures Counted(out).moved == Among(out, (g: Fact) => g.anchor == Moved)
    ensures Counted(out).ungrounded == Among(out, (g: Fact) => !g.grounded)
  {
    if out != [] {
      CountedExactly(out[..|out| - 1]);
    }
  }

  lemma CountedNext(out: seq<Fact>, g: Fact)
    ensures Counted(out + [g]) == Plus(Counted(out), g)
  {
    assert (out + [g])[..|out|] == out;
  }

  ghost predicate AllAnchored(facts: seq<Fact>, out: seq<Fact>, units: seq<Unit>, idxs: seq<nat>, overlap: Overlap) {
    |out| == |facts| && forall i :: 0 <= i < |facts| ==> Anchored(facts[i], out[i], units, idxs, overlap)
  }

  /** The facts so far are anchored, and counted. */
  ghost predicate AnchoredSoFar(facts: seq<Fact>, out: seq<Fact>, counts: Counts, units: seq<Unit>, idxs: seq<nat>,
                                overlap: Overlap)
  {
    AllAnchored(facts, out, units, idxs, overlap) && counts == Counted(out)
  }

  lemma AnchoredMore(facts: seq<Fact>, more: seq<Fact>, out: seq<Fact>, counts: Counts, units: seq<Unit>,
                     idxs: seq<nat>, overlap: Overlap, f: Fact, g: Fact)
    requires AnchoredSoFar(facts, out, counts, units, idxs, overlap) && more == facts + [f]
    requires Anchored(f, g, units, idxs, overlap)
    ensures AnchoredSoFar(more, out + [g], Plus(counts, g), units, idxs, overlap)
  {
    CountedNext(out, g);
  }

  lemma Prefixes<T>(s: seq<T>, i: nat)
    requires i < |s|
    ensures s[..i + 1] == s[..i] + [s[i]]
  {
  }

  method AnchorFact(f: Fact, units: seq<Unit>, idxs: seq<nat>, overlap: Overlap) returns (g: Fact)
    requires idxs != [] && OverlapOk(overlap) && InUnits(units, idxs)
    ensures Anchored(f, g, units, idxs, overlap)
  {
    var m := BestUnit(f, units, idxs, overlap);
    g := AnchorAt(f, units, idxs, overlap, idxs[m]);
  }

  /** Every fact of the answer anchored in its group, in order, and the outcomes counted. */
  method AnchorAndGround(facts: seq<Fact>, units: seq<Unit>, idxs: seq<nat>, overlap: Overlap)
    returns (out: seq<Fact>, counts: Counts)
    requires idxs != [] && OverlapOk(overlap) && InUnits(units, idxs)
    ensures AllAnchored(facts, out, units, idxs, overlap) && counts == Counted(out)
  {
    out, counts := [], Counts(0, 0, 0, 0);
    for i := 0 to |facts|
      invariant AnchoredSoFar(facts[..i], out, counts, units, idxs, overlap)
    {
      var g := AnchorFact(facts[i], units, idxs, overlap);
      Prefixes(facts, i);
      AnchoredMore(facts[..i], facts[..i + 1], out, counts, units, idxs, overlap, facts[i], g);
      out, counts := out + [g], Plus(counts, g);
    }
    assert facts[..|facts|] == facts;
  }

  // ----- the worklist --------------------------------------------------------------------------

  /** One generation: unconstrained text and flags. */
  datatype Reply = Reply(text: string, error: bool, truncated: bool, retried: bool)

  /** One ask: the last chunk before the group, for context only, and the chunks of the group. */
  datatype Ask = Ask(context: Option<nat>, idxs: seq<nat>)

  /** The model and what reads it, taken as given: the reply to the n-th ask, with or without the
      thinking retry; the parser; the refusal test; the end of the thought. */
  datatype Model = Model(
    ask: (nat, Ask, bool) -> Reply, parse: (string, bool) -> seq<Fact>, refuses: string -> bool,
    thinking: bool, closesThought: string -> bool)

  datatype Verdict = Broken(retried: bool) | Refusal | Parsed(facts: seq<Fact>, truncated: bool)

  function CutShort(model: Model, r: Reply, thinking: bool): bool {
    r.truncated && thinking && !model.closesThought(r.text)
  }

  /** The second ask, with the thought open: what it parses to, if anything. */
  function SecondAsk(model: Model, n: nat, a: Ask): (seq<Fact>, bool) {
    var r := model.ask(n, a, true);
    (if r.error || CutShort(model, r, true) then [] else model.parse(r.text, r.truncated), r.truncated)
  }

  /** What the n-th ask comes to. */
  function VerdictOn(model: Model, n: nat, a: Ask): Verdict {
    var r := model.ask(n, a, false);
    if r.error || CutShort(model, r, model.thinking) then Broken(r.retried)
    else
      var parsed := model.parse(r.text, r.truncated);
      if parsed == [] && model.refuses(r.text) then
        var (again, truncated) := SecondAsk(model, n, a);
        if again == [] then Refusal else Parsed(again, truncated)
      else Parsed(parsed, r.truncated)
  }

  /** An ask is broken when generation failed or was cut inside the thought; it counts as answered unless it parses to
      nothing and reads as a refusal; then a second ask with the thought open decides, a refusal again only if that
      fails, is cut, or parses to nothing. */
  lemma VerdictExactly(model: Model, n: nat, a: Ask)
    ensures var first, second := model.ask(n, a, false), model.ask(n, a, true);
            var broken := first.error || (first.truncated && model.thinking && !model.closesThought(first.text));
            var refused := model.parse(first.text, first.truncated) == [] && model.refuses(first.text);
            var lost := || second.error || (second.truncated && !model.closesThought(second.text))
                        || model.parse(second.text, second.truncated) == [];
            VerdictOn(model, n, a) == if broken then Broken(first.retried)
                                      else if !refused then Parsed(model.parse(first.text, first.truncated),
                                                                   first.truncated)
                                      else if lost then Refusal
                                      else Parsed(model.parse(second.text, second.truncated), second.truncated)
  {
  }

  /** A parsed fact never claims to be taken over from an older protocol. */
  ghost predicate ParserOk(model: Model) {
    forall text, cut, f :: f in model.parse(text, cut) ==> f.fallback == None
  }

  ghost predicate Clean(verdict: Verdict) {
    verdict.Parsed? ==> forall f :: f in verdict.facts ==> f.fallback == None
  }

  lemma VerdictClean(model: Model, n: nat, a: Ask)
    requires ParserOk(model)
    ensures Clean(VerdictOn(model, n, a))
  {
  }

  datatype Outcome = Failed | Refused | Answered(facts: seq<Fact>)

  datatype Report = Report(groups: nat, failed: nat, retried: nat, truncated: nat, refused: nat,
                           refusedChunks: seq<ChunkId>)

  function Tally(outcomes: seq<Outcome>, o: Outcome -> bool): nat {
    if outcomes == [] then 0
    else Tally(outcomes[..|outcomes| - 1], o) + if o(outcomes[|outcomes| - 1]) then 1 else 0
  }

  /** All the model's facts, group by group. */
  function FactsOf(outcomes: seq<Outcome>): seq<Fact> {
    if outcomes == [] then []
    else
      var last := outcomes[|outcomes| - 1];
      FactsOf(outcomes[..|outcomes| - 1]) + if last.Answered? then last.facts else []
  }

  function ChunksOf(units: seq<Unit>, idxs: seq<nat>): seq<ChunkId> {
    seq(|idxs|, x requires 0 <= x < |idxs| => if idxs[x] < |units| then units[idxs[x]].chunk else Folding.ChunkId(""))
  }

  function RefusedChunks(units: seq<Unit>, groups: seq<seq<nat>>, outcomes: seq<Outcome>): seq<ChunkId>
    requires |outcomes| <= |groups|
  {
    if outcomes == [] then []
    else
      var n := |outcomes| - 1;
      RefusedChunks(units, groups, outcomes[..n]) + if outcomes[n].Refused? then ChunksOf(units, groups[n]) else []
  }

  lemma {:induction false} RefusedChunksPrefix(units: seq<Unit>, a: seq<seq<nat>>, b: seq<seq<nat>>,
                                               outcomes: seq<Outcome>)
    requires |outcomes| <= |a| && |outcomes| <= |b| && a[..|outcomes|] == b[..|outcomes|]
    ensures RefusedChunks(units, a, outcomes) == RefusedChunks(units, b, outcomes)
  {
    if outcomes != [] {
      var n := |outcomes| - 1;
      assert a[..n] == a[..n + 1][..n] && b[..n] == b[..n + 1][..n];
      RefusedChunksPrefix(units, a, b, outcomes[..n]);
      assert a[n] == a[..n + 1][n] && b[n] == b[..n + 1][n];
    }
  }

  /** An answered group's facts all sit on its own chunks, and none is marked as taken over. */
  ghost predicate OutcomeOk(units: seq<Unit>, idxs: seq<nat>, o: Outcome) {
    o.Answered? ==> forall f :: f in o.facts ==> SitsIn(f, units, idxs) && f.fallback == None
  }

  /** The books of the worklist: every group behind gi has one outcome, and the report counts it. */
  ghost predicate Books(units: seq<Unit>, start: nat, groups: seq<seq<nat>>, gi: nat, outcomes: seq<Outcome>,
                        report: Report, facts: seq<Fact>)
  {
    && Partition(groups, |units|) && gi == |outcomes| <= |groups|
    && |groups| == start + report.retried
    && report.groups == report.retried + gi
    && gi == report.failed + report.refused + Tally(outcomes, (o: Outcome) => o.Answered?)
    && report.failed == Tally(outcomes, (o: Outcome) => o.Failed?)
    && report.refused == Tally(outcomes, (o: Outcome) => o.Refused?)
    && report.refusedChunks == RefusedChunks(units, groups, outcomes)
    && facts == FactsOf(outcomes)
    && forall x :: 0 <= x < gi ==> OutcomeOk(units, groups[x], outcomes[x])
  }

  lemma BooksSplit(units: seq<Unit>, start: nat, groups: seq<seq<nat>>, gi: nat, outcomes: seq<Outcome>, report: Report,
                   facts: seq<Fact>)
    requires Books(units, start, groups, gi, outcomes, report, facts) && gi < |groups| && |groups[gi]| > 1
    ensures Books(units, start, SplitAt(groups, gi), gi, outcomes,
                  report.(groups := report.groups + 1, retried := report.retried + 1), facts)
  {
    SplitKeepsPartition(groups, gi, |units|);
    assert SplitAt(groups, gi)[..gi] == groups[..gi];
    RefusedChunksPrefix(units, groups, SplitAt(groups, gi), outcomes);
  }

  function Reported(report: Report, units: seq<Unit>, idxs: seq<nat>, o: Outcome, truncated: bool): Report {
    report.(groups := report.groups + 1,
            failed := report.failed + if o.Failed? then 1 else 0,
            refused := report.refused + if o.Refused? then 1 else 0,
            truncated := report.truncated + if truncated then 1 else 0,
            refusedChunks := if o.Refused? then report.refusedChunks + ChunksOf(units, idxs) else report.refusedChunks)
  }

  function Collected(facts: seq<Fact>, o: Outcome): seq<Fact> {
    if o.Answered? then facts + o.facts else facts
  }

  lemma TallyNext(outcomes: seq<Outcome>, o: Outcome, kind: Outcome -> bool)
    ensures Tally(outcomes + [o], kind) == Tally(outcomes, kind) + if kind(o) then 1 else 0
  {
    assert (outcomes + [o])[..|outcomes|] == outcomes;
  }

  lemma OutcomeNext(units: seq<Unit>, groups: seq<seq<nat>>, outcomes: seq<Outcome>, o: Outcome)
    requires |outcomes| < |groups|
    ensures FactsOf(outcomes + [o]) == FactsOf(outcomes) + if o.Answered? then o.facts else []
    ensures RefusedChunks(units, groups, outcomes + [o])
         == RefusedChunks(units, groups, outcomes) + if o.Refused? then ChunksOf(units, groups[|outcomes|]) else []
  {
    assert (outcomes + [o])[..|outcomes|] == outcomes;
  }

  lemma BooksOutcome(units: seq<Unit>, start: nat, groups: seq<seq<nat>>, gi: nat, outcomes: seq<Outcome>,
                     report: Report,
                     facts: seq<Fact>, o: Outcome, truncated: bool)
    requires Books(units, start, groups, gi, outcomes, report, facts) && gi < |groups|
             && OutcomeOk(units, groups[gi], o)
    ensures Books(units, start, groups, gi + 1, outcomes + [o], Reported(report, units, groups[gi], o, truncated),
                  Collected(facts, o))
  {
    TalliesNext(outcomes, o);
    OutcomeNext(units, groups, outcomes, o);
    forall x | 0 <= x < gi + 1 ensures OutcomeOk(units, groups[x], (outcomes + [o])[x]) {
      assert x < gi ==> (outcomes + [o])[x] == outcomes[x];
    }
  }

  lemma TalliesNext(outcomes: seq<Outcome>, o: Outcome)
    ensures Tally(outcomes + [o], (x: Outcome) => x.Answered?)
         == Tally(outcomes, (x: Outcome) => x.Answered?) + if o.Answered? then 1 else 0
    ensures Tally(outcomes + [o], (x: Outcome) => x.Failed?)
         == Tally(outcomes, (x: Outcome) => x.Failed?) + if o.Failed? then 1 else 0
    ensures Tally(outcomes + [o], (x: Outcome) => x.Refused?)
         == Tally(outcomes, (x: Outcome) => x.Refused?) + if o.Refused? then 1 else 0
  {
    TallyNext(outcomes, o, (x: Outcome) => x.Answered?);
    TallyNext(outcomes, o, (x: Outcome) => x.Failed?);
    TallyNext(outcomes, o, (x: Outcome) => x.Refused?);
  }

  /** An in-order partition only holds indices of units. */
  lemma IndicesInRange(groups: seq<seq<nat>>, n: nat, i: nat)
    requires Partition(groups, n) && i < |groups|
    ensures groups[i] != [] && forall x :: x in groups[i] ==> x < n
  {
    forall x | x in groups[i] ensures x < n {
      var p :| 0 <= p < |groups[i]| && groups[i][p] == x;
      IndexAt(groups, n, i, p);
    }
  }

  // ----- the loop as a machine ---------------------------------------------------------------

  datatype Given = Given(units: seq<Unit>, model: Model, overlap: Overlap)

  /** Where the loop stands: the worklist, the group it is at, the context chunk, and the outcomes of the
      groups behind it. */
  datatype Spot = Spot(work: seq<seq<nat>>, gi: nat, context: Option<nat>, outcomes: seq<Outcome>)

  function AskAt(s: Spot): Ask
    requires s.gi < |s.work|
  {
    Ask(s.context, s.work[s.gi])
  }

  /** A broken ask for several chunks that was not retried yet: the group is cut in two. */
  predicate Splits(verdict: Verdict, idxs: seq<nat>) {
    verdict.Broken? && |idxs| > 1 && !verdict.retried
  }

  ghost predicate OutcomeFrom(g: Given, verdict: Verdict, idxs: seq<nat>, o: Outcome) {
    && (o.Failed? <==> verdict.Broken?) && (o.Refused? <==> verdict.Refusal?)
    && (o.Answered? ==> AllAnchored(verdict.facts, o.facts, g.units, idxs, g.overlap))
  }

  function ContextAfter(context: Option<nat>, idxs: seq<nat>, o: Outcome): Option<nat> {
    if o.Failed? || idxs == [] then context else Some(idxs[|idxs| - 1])
  }

  function Settled(s: Spot, o: Outcome): Spot
    requires s.gi < |s.work|
  {
    Spot(s.work, s.gi + 1, ContextAfter(s.context, s.work[s.gi], o), s.outcomes + [o])
  }

  /** The n-th round: the ask about the group at gi splits it in place, or settles it and moves on. */
  ghost predicate Stepped(g: Given, n: nat, s: Spot, t: Spot) {
    && s.gi < |s.work|
    && var verdict := VerdictOn(g.model, n, AskAt(s));
       if Splits(verdict, s.work[s.gi]) then t == s.(work := SplitAt(s.work, s.gi))
       else exists o :: OutcomeFrom(g, verdict, s.work[s.gi], o) && t == Settled(s, o)
  }

  /** Every round from the groups the window cuts, to the end of the worklist. */
  ghost predicate Traced(g: Given, window: int, trace: seq<Spot>) {
    && trace != [] && trace[0] == Spot(trace[0].work, 0, None, [])
    && Partition(trace[0].work, |g.units|)
    && AllFit(g.units, trace[0].work, window) && Greedy(g.units, trace[0].work, window)
    && forall n :: 0 <= n < |trace| - 1 ==> Stepped(g, n, trace[n], trace[n + 1])
  }

  // ----- what every round keeps ----------------------------------------------------------------

  /** The last chunk of the nearest earlier group that did not fail, if any. */
  function ContextAt(groups: seq<seq<nat>>, outcomes: seq<Outcome>): Option<nat>
    requires |outcomes| <= |groups|
  {
    if outcomes == [] then None
    else
      var n := |outcomes| - 1;
      ContextAfter(ContextAt(groups, outcomes[..n]), groups[n], outcomes[n])
  }

  lemma {:induction false} ContextPrefix(a: seq<seq<nat>>, b: seq<seq<nat>>, outcomes: seq<Outcome>)
    requires |outcomes| <= |a| && |outcomes| <= |b| && a[..|outcomes|] == b[..|outcomes|]
    ensures ContextAt(a, outcomes) == ContextAt(b, outcomes)
  {
    if outcomes != [] {
      var n := |outcomes| - 1;
      assert a[..n] == a[..n + 1][..n] && b[..n] == b[..n + 1][..n];
      ContextPrefix(a, b, outcomes[..n]);
      assert a[n] == a[..n + 1][n] && b[n] == b[..n + 1][n];
    }
  }

  /** In every round: the worklist is an in-order partition, one outcome per group behind, as many groups as
      at the start and splits since, and the context is the nearest earlier group that did not fail. */
  ghost predicate SpotOk(g: Given, start: nat, n: nat, s: Spot) {
    && Partition(s.work, |g.units|) && |s.work| <= |g.units|
    && s.gi == |s.outcomes| <= |s.work| && |s.work| + s.gi == start + n
    && s.context == ContextAt(s.work, s.outcomes)
    && forall x :: 0 <= x < s.gi ==> OutcomeOk(g.units, s.work[x], s.outcomes[x])
  }

  lemma SplitKeepsSpot(g: Given, start: nat, n: nat, s: Spot)
    requires SpotOk(g, start, n, s) && s.gi < |s.work| && |s.work[s.gi]| > 1
    ensures SpotOk(g, start, n + 1, s.(work := SplitAt(s.work, s.gi)))
  {
    SplitKeepsPartition(s.work, s.gi, |g.units|);
    NoMoreGroupsThanIndices(SplitAt(s.work, s.gi));
    assert SplitAt(s.work, s.gi)[..s.gi] == s.work[..s.gi];
    ContextPrefix(s.work, SplitAt(s.work, s.gi), s.outcomes);
  }

  lemma SettleKeepsSpot(g: Given, start: nat, n: nat, s: Spot, o: Outcome)
    requires SpotOk(g, start, n, s) && s.gi < |s.work| && OutcomeOk(g.units, s.work[s.gi], o)
    ensures SpotOk(g, start, n + 1, Settled(s, o))
  {
    assert (s.outcomes + [o])[..s.gi] == s.outcomes;
  }

  lemma FromVerdict(g: Given, verdict: Verdict, idxs: seq<nat>, o: Outcome)
    requires OutcomeFrom(g, verdict, idxs, o) && Clean(verdict)
    ensures OutcomeOk(g.units, idxs, o)
  {
    if o.Answered? {
      forall f | f in o.facts ensures SitsIn(f, g.units, idxs) && f.fallback == None {
        var i :| 0 <= i < |o.facts| && o.facts[i] == f;
        AnchoredInGroup(verdict.facts[i], f, g.units, idxs, g.overlap);
        assert verdict.facts[i] in verdict.facts;
      }
    }
  }

  lemma StepKeepsSpot(g: Given, start: nat, n: nat, s: Spot, t: Spot)
    requires ParserOk(g.model) && SpotOk(g, start, n, s) && Stepped(g, n, s, t)
    ensures SpotOk(g, start, n + 1, t)
  {
    var verdict := VerdictOn(g.model, n, AskAt(s));
    if Splits(verdict, s.work[s.gi]) {
      SplitKeepsSpot(g, start, n, s);
    } else {
      var o :| OutcomeFrom(g, verdict, s.work[s.gi], o) && t == Settled(s, o);
      VerdictClean(g.model, n, AskAt(s));
      FromVerdict(g, verdict, s.work[s.gi], o);
      SettleKeepsSpot(g, start, n, s, o);
    }
  }

  /** The worklist is an in-order partition at all times. */
  lemma {:induction false} AlwaysPartition(g: Given, window: int, trace: seq<Spot>, n: nat)
    requires ParserOk(g.model) && Traced(g, window, trace) && n < |trace|
    ensures SpotOk(g, |trace[0].work|, n, trace[n])
  {
    if n == 0 {
      NoMoreGroupsThanIndices(trace[0].work);
    } else {
      AlwaysPartition(g, window, trace, n - 1);
      StepKeepsSpot(g, |trace[0].work|, n - 1, trace[n - 1], trace[n]);
    }
  }

  /** From G groups over n chunks the loop takes at most 2n - G rounds. */
  lemma RoundsBounded(g: Given, window: int, trace: seq<Spot>)
    requires ParserOk(g.model) && Traced(g, window, trace)
    ensures |trace| - 1 + |trace[0].work| <= 2 * |g.units|
  {
    AlwaysPartition(g, window, trace, |trace| - 1);
  }

  /** The context chunk of every ask precedes every chunk asked about. */
  lemma ContextPrecedes(g: Given, window: int, trace: seq<Spot>, n: nat)
    requires ParserOk(g.model) && Traced(g, window, trace) && n < |trace| && trace[n].gi < |trace[n].work|
    ensures var a := AskAt(trace[n]);
            a.context.Some? ==> a.context.value < |g.units| && forall x :: x in a.idxs ==> a.context.value < x
  {
    var s := trace[n];
    AlwaysPartition(g, window, trace, n);
    if s.context.Some? {
      var y := ContextGroup(s.work, s.outcomes);
      assert s.work[y][|s.work[y]| - 1] in s.work[y];
      assert s.work[s.gi][0] in s.work[s.gi];
      forall x | x in s.work[s.gi] ensures s.context.value < x < |g.units| {
        EarlierPrecedes(s.work, |g.units|, y, s.gi, s.context.value, x);
      }
    }
  }

  /** The context is the last chunk of a group that did not fail, and all groups since have failed. */
  lemma {:induction false} ContextGroup(groups: seq<seq<nat>>, outcomes: seq<Outcome>) returns (y: nat)
    requires |outcomes| <= |groups| && NonEmpty(groups)
    requires ContextAt(groups, outcomes).Some?
    ensures y < |outcomes| && !outcomes[y].Failed?
    ensures ContextAt(groups, outcomes) == Some(groups[y][|groups[y]| - 1])
    ensures forall x :: y < x < |outcomes| ==> outcomes[x].Failed?
  {
    y := |outcomes| - 1;
    if outcomes[y].Failed? {
      y := ContextGroup(groups, outcomes[..|outcomes| - 1]);
    }
  }

  /** A group that is not split: failed, refused (its chunks reported), or answered and anchored. */
  method Settle(g: Given, verdict: Verdict, idxs: seq<nat>, report0: Report)
    returns (o: Outcome, report: Report, ghost truncated: bool)
    requires OverlapOk(g.overlap) && idxs != [] && InUnits(g.units, idxs) && Clean(verdict)
    ensures OutcomeFrom(g, verdict, idxs, o) && OutcomeOk(g.units, idxs, o)
    ensures report == Reported(report0, g.units, idxs, o, truncated)
    ensures truncated <==> verdict.Parsed? && verdict.truncated
  {
    truncated := verdict.Parsed? && verdict.truncated;
    match verdict {
      case Broken(_) =>
        o, report := Failed, report0.(groups := report0.groups + 1, failed := report0.failed + 1);
      case Refusal =>
        o := Refused;
        report := report0.(groups := report0.groups + 1, refused := report0.refused + 1,
                           refusedChunks := report0.refusedChunks + ChunksOf(g.units, idxs));
      case Parsed(parsed, cut) =>
        var anchored, counts := AnchorAndGround(parsed, g.units, idxs, g.overlap);
        o := Answered(anchored);
        report := report0.(groups := report0.groups + 1, truncated := report0.truncated + if cut then 1 else 0);
    }
    FromVerdict(g, verdict, idxs, o);
  }

  // ----- the loop ------------------------------------------------------------------------------

  /** All that the loop keeps: the rounds so far led here, and the books are right. */
  ghost predicate Working(g: Given, window: int, trace: seq<Spot>, s: Spot, report: Report, facts: seq<Fact>) {
    && Traced(g, window, trace) && s == trace[|trace| - 1] && report.groups == |trace| - 1
    && SpotOk(g, |trace[0].work|, |trace| - 1, s)
    && Books(g.units, |trace[0].work|, s.work, s.gi, s.outcomes, report, facts)
  }

  lemma WorkingRange(g: Given, window: int, trace: seq<Spot>, s: Spot, report: Report, facts: seq<Fact>)
    requires Working(g, window, trace, s, report, facts) && s.gi < |s.work|
    ensures s.work[s.gi] != [] && InUnits(g.units, s.work[s.gi])
  {
    IndicesInRange(s.work, |g.units|, s.gi);
    forall x | 0 <= x < |s.work[s.gi]| ensures s.work[s.gi][x] < |g.units| {
      assert s.work[s.gi][x] in s.work[s.gi];
    }
  }

  lemma TraceMore(g: Given, window: int, trace: seq<Spot>, t: Spot)
    requires Traced(g, window, trace) && Stepped(g, |trace| - 1, trace[|trace| - 1], t)
    ensures Traced(g, window, trace + [t])
  {
    var more := trace + [t];
    forall n | 0 <= n < |more| - 1 ensures Stepped(g, n, more[n], more[n + 1]) {
      if n < |trace| - 1 {
        assert more[n] == trace[n] && more[n + 1] == trace[n + 1];
      }
    }
  }

  lemma WorkingSplit(g: Given, window: int, trace: seq<Spot>, s: Spot, report: Report, facts: seq<Fact>)
    requires Working(g, window, trace, s, report, facts) && s.gi < |s.work|
    requires Splits(VerdictOn(g.model, report.groups, AskAt(s)), s.work[s.gi])
    ensures var t := s.(work := SplitAt(s.work, s.gi));
            && |t.work| == |s.work| + 1
            && Working(g, window, trace + [t], t, report.(groups := report.groups + 1, retried := report.retried + 1),
                       facts)
  {
    var t := s.(work := SplitAt(s.work, s.gi));
    TraceMore(g, window, trace, t);
    SplitKeepsSpot(g, |trace[0].work|, |trace| - 1, s);
    BooksSplit(g.units, |trace[0].work|, s.work, s.gi, s.outcomes, report, facts);
  }

  lemma WorkingSettled(g: Given, window: int, trace: seq<Spot>, s: Spot, report: Report, facts: seq<Fact>,
                       o: Outcome, truncated: bool)
    requires Working(g, window, trace, s, report, facts) && s.gi < |s.work|
    requires var verdict := VerdictOn(g.model, report.groups, AskAt(s));
             !Splits(verdict, s.work[s.gi]) && OutcomeFrom(g, verdict, s.work[s.gi], o)
    requires OutcomeOk(g.units, s.work[s.gi], o)
    ensures var t := Settled(s, o);
            Working(g, window, trace + [t], t, Reported(report, g.units, s.work[s.gi], o, truncated),
                    Collected(facts, o))
  {
    TraceMore(g, window, trace, Settled(s, o));
    SettleKeepsSpot(g, |trace[0].work|, |trace| - 1, s, o);
    BooksOutcome(g.units, |trace[0].work|, s.work, s.gi, s.outcomes, report, facts, o, truncated);
  }

  lemma WorkingStart(g: Given, window: int, work: seq<seq<nat>>)
    requires Partition(work, |g.units|) && AllFit(g.units, work, window) && Greedy(g.units, work, window)
    ensures Working(g, window, [Spot(work, 0, None, [])], Spot(work, 0, None, []), Report(0, 0, 0, 0, 0, []), [])
  {
    NoMoreGroupsThanIndices(work);
  }

  /** One round: the group at gi is asked about, and split, or settled and left behind. */
  method TreatGroup(g: Given, ghost window: int, ghost trace0: seq<Spot>, s: Spot, report0: Report, facts0: seq<Fact>)
    returns (t: Spot, report: Report, facts: seq<Fact>)
    requires OverlapOk(g.overlap) && ParserOk(g.model) && s.gi < |s.work|
    requires Working(g, window, trace0, s, report0, facts0)
    ensures Working(g, window, trace0 + [t], t, report, facts)
    ensures (|t.work| == |s.work| + 1 && t.gi == s.gi) || (t.work == s.work && t.gi == s.gi + 1)
  {
    t, report, facts := s, report0, facts0;
    var idxs := s.work[s.gi];
    WorkingRange(g, window, trace0, s, report, facts);
    var verdict := VerdictOn(g.model, report.groups, AskAt(s));
    VerdictClean(g.model, report.groups, AskAt(s));
    if verdict.Broken? && |idxs| > 1 && !verdict.retried {
      WorkingSplit(g, window, trace0, s, report, facts);
      t := t.(work := SplitAt(t.work, t.gi));
      report := report.(groups := report.groups + 1, retried := report.retried + 1);
      return;
    }
    var o;
    ghost var truncated;
    o, report, truncated := Settle(g, verdict, idxs, report);
    WorkingSettled(g, window, trace0, s, report0, facts, o, truncated);
    facts := Collected(facts, o);
    t := Spot(t.work, t.gi + 1, if o.Failed? then t.context else Some(idxs[|idxs| - 1]), t.outcomes + [o]);
  }

  /** The books of a finished run: its groups, facts and report are those the rounds led to. */
  ghost predicate Account(g: Given, window: int, trace: seq<Spot>, report: Report, facts: seq<Fact>) {
    && Traced(g, window, trace) && report.groups == |trace| - 1
    && var s := trace[|trace| - 1];
       s.gi == |s.work| && Books(g.units, |trace[0].work|, s.work, s.gi, s.outcomes, report, facts)
  }

  ghost predicate Accounted(g: Given, window: int, report: Report, facts: seq<Fact>) {
    exists trace :: Account(g, window, trace, report, facts)
  }

  /** The source's while loop. A broken group of several chunks is cut in two in place; every other
      group is failed, refused or answered and left behind. */
  method LlmWitness(g: Given, window: int) returns (facts: seq<Fact>, report: Report)
    requires OverlapOk(g.overlap) && ParserOk(g.model)
    ensures Accounted(g, window, report, facts)
  {
    var work := Groups(g.units, window);
    var s := Spot(work, 0, None, []);
    facts, report := [], Report(0, 0, 0, 0, 0, []);
    ghost var trace := [s];
    WorkingStart(g, window, work);
    while s.gi < |s.work|
      invariant Working(g, window, trace, s, report, facts)
      decreases |g.units| - |s.work|, |s.work| - s.gi
    {
      s, report, facts := TreatGroup(g, window, trace, s, report, facts);
      trace := trace + [s];
    }
    assert Account(g, window, trace, report, facts);
  }

  // ----- a refusal never loses recorded facts --------------------------------------------------

  datatype Protocol = Protocol(facts: seq<Fact>, source: string)

  function Marked(prev: Protocol, f: Fact): Fact {
    f.(fallback := Some(if prev.source != "" then prev.source else "previous"))
  }

  /** A fact taken over is as it was, but names the witness it came from, or that it is from before. */
  lemma MarkedExactly(prev: Protocol, f: Fact)
    ensures Marked(prev, f).fallback == Some(if prev.source == "" then "previous" else prev.source)
    ensures Marked(prev, f).(fallback := f.fallback) == f
  {
  }

  function MarkedAll(prev: Protocol, fs: seq<Fact>): seq<Fact> {
    seq(|fs|, i requires 0 <= i < |fs| => Marked(prev, fs[i]))
  }

  function InChunk(fs: seq<Fact>, c: ChunkId): seq<Fact> {
    if fs == [] then []
    else
      var front, last := InChunk(fs[..|fs| - 1], c), fs[|fs| - 1];
      if last.chunk == Some(c) then front + [last] else front
  }

  lemma InChunkAppend(fs: seq<Fact>, f: Fact, c: ChunkId)
    ensures InChunk(fs + [f], c) == if f.chunk == Some(c) then InChunk(fs, c) + [f] else InChunk(fs, c)
  {
    assert (fs + [f])[..|fs|] == fs;
  }

  lemma {:induction false} InChunkConcat(a: seq<Fact>, b: seq<Fact>, c: ChunkId)
    ensures InChunk(a + b, c) == InChunk(a, c) + InChunk(b, c)
  {
    if b == [] {
      assert a + b == a;
    } else {
      var front, last := b[..|b| - 1], b[|b| - 1];
      assert a + b == (a + front) + [last] && b == front + [last];
      InChunkConcat(a, front, c);
      InChunkAppend(a + front, last, c);
      InChunkAppend(front, last, c);
    }
  }

  lemma {:induction false} InChunkNone(fs: seq<Fact>, c: ChunkId)
    requires forall f :: f in fs ==> f.chunk != Some(c)
    ensures InChunk(fs, c) == []
  {
    if fs != [] {
      InChunkNone(fs[..|fs| - 1], c);
      assert fs[|fs| - 1] in fs;
    }
  }

  /** For chunk c, `out` holds exactly the old facts of c if c was refused, and nothing otherwise. */
  ghost predicate TakenOver(prev: Protocol, known: seq<Fact>, refused: seq<ChunkId>, out: seq<Fact>, c: ChunkId) {
    InChunk(out, c) == if c in refused then MarkedAll(prev, InChunk(known, c)) else []
  }

  /** The fact is an old one of a refused chunk, marked with the witness it came from. */
  ghost predicate FromBefore(prev: Protocol, refused: seq<ChunkId>, f: Fact) {
    && f.fallback.Some? && f.chunk.Some? && f.chunk.value in refused
    && exists g :: g in prev.facts && f == Marked(prev, g)
  }

  lemma MarkedSnoc(prev: Protocol, fs: seq<Fact>, f: Fact)
    ensures MarkedAll(prev, fs + [f]) == MarkedAll(prev, fs) + [Marked(prev, f)]
  {
  }

  lemma TakeOverFact(prev: Protocol, known: seq<Fact>, refused: seq<ChunkId>, out: seq<Fact>, f: Fact, c: ChunkId)
    requires TakenOver(prev, known, refused, out, c) && f.chunk.Some? && f.chunk.value in refused
    ensures TakenOver(prev, known + [f], refused, out + [Marked(prev, f)], c)
  {
    InChunkAppend(out, Marked(prev, f), c);
    InChunkAppend(known, f, c);
    MarkedSnoc(prev, InChunk(known, c), f);
  }

  lemma PassOverFact(prev: Protocol, known: seq<Fact>, refused: seq<ChunkId>, out: seq<Fact>, f: Fact, c: ChunkId)
    requires TakenOver(prev, known, refused, out, c) && (f.chunk.Some? ==> f.chunk.value !in refused)
    ensures TakenOver(prev, known + [f], refused, out, c)
  {
    InChunkAppend(known, f, c);
  }

  /** The previous protocol's facts for the refused chunks, marked with their witness. */
  method FallbackFacts(prev: Protocol, refused: seq<ChunkId>) returns (out: seq<Fact>)
    ensures forall c {:trigger TakenOver(prev, prev.facts, refused, out, c)} :: TakenOver(prev, prev.facts, refused,
            out, c)
    ensures forall f :: f in out ==> FromBefore(prev, refused, f)
  {
    out := [];
    for n := 0 to |prev.facts|
      invariant forall c {:trigger TakenOver(prev, prev.facts[..n], refused, out, c)} ::
                  TakenOver(prev, prev.facts[..n], refused, out, c)
      invariant forall f :: f in out ==> FromBefore(prev, refused, f)
    {
      var f := prev.facts[n];
      ghost var before := out;
      if f.chunk.Some? && f.chunk.value in refused {
        assert f in prev.facts;
        assert FromBefore(prev, refused, Marked(prev, f));
        out := out + [Marked(prev, f)];
      }
      var m := n + 1;
      assert prev.facts[..m] == prev.facts[..n] + [f];
      forall c ensures TakenOver(prev, prev.facts[..m], refused, out, c) {
        assert TakenOver(prev, prev.facts[..n], refused, before, c);
        if f.chunk.Some? && f.chunk.value in refused {
          TakeOverFact(prev, prev.facts[..n], refused, before, f, c);
        } else {
          PassOverFact(prev, prev.facts[..n], refused, before, f, c);
        }
      }
    }
    assert prev.facts[..|prev.facts|] == prev.facts;
  }

  ghost predicate DistinctChunks(units: seq<Unit>) {
    forall i, j :: 0 <= i < j < |units| ==> units[i].chunk != units[j].chunk
  }

  /** The chunk belongs to a refused group. */
  ghost predicate WasRefused(units: seq<Unit>, groups: seq<seq<nat>>, outcomes: seq<Outcome>, c: ChunkId) {
    exists x, i :: 0 <= x < |outcomes| && x < |groups| && outcomes[x].Refused? && i in groups[x] && i < |units|
      && units[i].chunk == c
  }

  lemma {:induction false} RefusedChunkGroup(units: seq<Unit>, groups: seq<seq<nat>>, outcomes: seq<Outcome>,
                                             c: ChunkId)
    requires |outcomes| <= |groups| && c in RefusedChunks(units, groups, outcomes)
    requires forall x, i :: 0 <= x < |groups| && i in groups[x] ==> i < |units|
    ensures WasRefused(units, groups, outcomes, c)
  {
    var n := |outcomes| - 1;
    if c in RefusedChunks(units, groups, outcomes[..n]) {
      RefusedChunkGroup(units, groups, outcomes[..n], c);
      var x, i :| 0 <= x < n && outcomes[..n][x].Refused? && i in groups[x] && i < |units| && units[i].chunk == c;
      assert outcomes[x].Refused?;
    } else {
      var m :| 0 <= m < |groups[n]| && ChunksOf(units, groups[n])[m] == c;
      assert groups[n][m] in groups[n];
    }
  }

  lemma {:induction false} RefusedGroupChunk(units: seq<Unit>, groups: seq<seq<nat>>, outcomes: seq<Outcome>, x: nat,
                                             i: nat)
    requires x < |outcomes| <= |groups| && outcomes[x].Refused? && i in groups[x] && i < |units|
    ensures units[i].chunk in RefusedChunks(units, groups, outcomes)
    decreases |outcomes|
  {
    var n := |outcomes| - 1;
    if x < n {
      assert outcomes[..n][x] == outcomes[x];
      RefusedGroupChunk(units, groups, outcomes[..n], x, i);
    } else {
      var m :| 0 <= m < |groups[n]| && groups[n][m] == i;
      assert ChunksOf(units, groups[n])[m] == units[i].chunk;
    }
  }

  lemma {:induction false} FactSource(outcomes: seq<Outcome>, f: Fact) returns (x: nat)
    requires f in FactsOf(outcomes)
    ensures x < |outcomes| && outcomes[x].Answered? && f in outcomes[x].facts
  {
    var n := |outcomes| - 1;
    if f in FactsOf(outcomes[..n]) {
      x := FactSource(outcomes[..n], f);
    } else {
      x := n;
    }
  }

  /** No fact of the model sits on a chunk of a refused group. */
  lemma ModelFactsAvoidRefused(units: seq<Unit>, start: nat, groups: seq<seq<nat>>, outcomes: seq<Outcome>,
                               report: Report,
                               facts: seq<Fact>, c: ChunkId)
    requires DistinctChunks(units)
    requires Books(units, start, groups, |groups|, outcomes, report, facts)
    requires c in report.refusedChunks
    ensures forall f :: f in facts ==> f.chunk != Some(c)
  {
    RefusedExactly(units, start, groups, outcomes, report, facts, c);
    var x, i :| 0 <= x < |outcomes| && outcomes[x].Refused? && i in groups[x] && i < |units| && units[i].chunk == c;
    forall f | f in facts ensures f.chunk != Some(c) {
      var y := FactSource(outcomes, f);
      assert OutcomeOk(units, groups[y], outcomes[y]);
      OtherGroup(units, groups, x, i, y, f);
    }
  }

  /** A fact on a chunk of another group sits on another chunk. */
  lemma OtherGroup(units: seq<Unit>, groups: seq<seq<nat>>, x: nat, i: nat, y: nat, f: Fact)
    requires DistinctChunks(units) && Partition(groups, |units|)
    requires x < |groups| && y < |groups| && x != y && i in groups[x] && i < |units| && SitsIn(f, units, groups[y])
    ensures f.chunk != Some(units[i].chunk)
  {
    var j :| j in groups[y] && j < |units| && f.chunk == Some(units[j].chunk);
    if x < y {
      EarlierPrecedes(groups, |units|, x, y, i, j);
    } else {
      EarlierPrecedes(groups, |units|, y, x, j, i);
    }
  }

  /** The LLM part of the new protocol: per refused chunk exactly what was on record, marked; for
      every other chunk only what the model said now. */
  ghost predicate NothingLost(prev: Protocol, modelFacts: seq<Fact>, part: seq<Fact>, refused: seq<ChunkId>) {
    && (forall c :: c in refused ==> InChunk(part, c) == MarkedAll(prev, InChunk(prev.facts, c)))
    && (forall c :: c !in refused ==> InChunk(part, c) == InChunk(modelFacts, c))
    && (forall f :: f in part && f.fallback == None ==> f in modelFacts)
    && (forall f :: f in part && f.fallback.Some? ==> f.chunk.Some? && f.chunk.value in refused && f !in modelFacts)
  }

  /** The chunks reported as refused are exactly those of refused groups. */
  lemma RefusedExactly(units: seq<Unit>, start: nat, groups: seq<seq<nat>>, outcomes: seq<Outcome>, report: Report,
                       facts: seq<Fact>, c: ChunkId)
    requires Books(units, start, groups, |groups|, outcomes, report, facts)
    ensures c in report.refusedChunks <==> WasRefused(units, groups, outcomes, c)
  {
    if c in report.refusedChunks {
      forall x, i | 0 <= x < |groups| && i in groups[x] ensures i < |units| {
        IndicesInRange(groups, |units|, x);
      }
      RefusedChunkGroup(units, groups, outcomes, c);
    }
    if WasRefused(units, groups, outcomes, c) {
      var x, i :| 0 <= x < |outcomes| && outcomes[x].Refused? && i in groups[x] && i < |units| && units[i].chunk == c;
      RefusedGroupChunk(units, groups, outcomes, x, i);
    }
  }

  /** The LLM part of the new protocol, made of what the model said and what a refusal falls back to. */
  method RunLlmWitness(g: Given, prev: Protocol, window: int) returns (part: seq<Fact>, report: Report)
    requires OverlapOk(g.overlap) && DistinctChunks(g.units) && ParserOk(g.model)
    ensures exists facts :: Accounted(g, window, report, facts) && NothingLost(prev, facts, part, report.refusedChunks)
  {
    var facts;
    facts, report := LlmWitness(g, window);
    var back := FallbackFacts(prev, report.refusedChunks);
    part := if report.refusedChunks == [] then facts else facts + back;
    ghost var trace: seq<Spot> :| Account(g, window, trace, report, facts);
    ghost var s := trace[|trace| - 1];
    Combine(g.units, |trace[0].work|, s.work, s.outcomes, report, prev, facts, back, part);
  }

  lemma Combine(units: seq<Unit>, start: nat, groups: seq<seq<nat>>, outcomes: seq<Outcome>, report: Report,
                prev: Protocol, facts: seq<Fact>, back: seq<Fact>, part: seq<Fact>)
    requires DistinctChunks(units) && Books(units, start, groups, |groups|, outcomes, report, facts)
    requires forall c {:trigger TakenOver(prev, prev.facts, report.refusedChunks, back, c)} ::
               TakenOver(prev, prev.facts, report.refusedChunks, back, c)
    requires forall f :: f in back ==> FromBefore(prev, report.refusedChunks, f)
    requires part == if report.refusedChunks == [] then facts else facts + back
    ensures NothingLost(prev, facts, part, report.refusedChunks)
  {
    forall c
      ensures InChunk(part, c) == if c in report.refusedChunks then MarkedAll(prev, InChunk(prev.facts, c))
              else InChunk(facts, c)
    {
      InChunkConcat(facts, back, c);
      assert TakenOver(prev, prev.facts, report.refusedChunks, back, c);
      if c in report.refusedChunks {
        ModelFactsAvoidRefused(units, start, groups, outcomes, report, facts, c);
        InChunkNone(facts, c);
      }
    }
    forall f | f in facts ensures f.fallback == None {
      var y := FactSource(outcomes, f);
      assert OutcomeOk(units, groups[y], outcomes[y]);
    }
  }
}
