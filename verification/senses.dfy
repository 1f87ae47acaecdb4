/** Word-sense induction (assoc/senses.py:69-133): the leader pass that groups a word's contexts, the
    merge pass that joins clusters still close to each other, and the senses that remain. */
module Senses {
  import opened Common
  import opened Grouping
  import opened Vectors

  datatype Context = Context(chunk: string)

  datatype Cluster = Cluster(members: seq<Context>, sum: Vec)

  /** Cosine of two running sums; taken as given. */
  type Similarity = (Vec, Vec) -> real

  type Signature = Context -> Vec

  function MembersOf(clusters: seq<Cluster>): seq<seq<Context>> {
    seq(|clusters|, i requires 0 <= i < |clusters| => clusters[i].members)
  }

  ghost predicate ClusterOk(cl: Cluster, vec: Signature) {
    cl.members != [] && cl.sum == Total(cl.members, vec)
  }

  /** The clusters hold exactly these contexts, each as often as given; none is empty; every running
      sum is the sum of its members' vectors. */
  ghost predicate Clustered(clusters: seq<Cluster>, contexts: multiset<Context>, vec: Signature) {
    && Bag(MembersOf(clusters)) == contexts
    && forall i :: 0 <= i < |clusters| ==> ClusterOk(clusters[i], vec)
  }

  // ----- the leader pass -----------------------------------------------------------------------

  /** The first cluster of greatest similarity, among those the scan would take at all. */
  ghost predicate Nearest(clusters: seq<Cluster>, v: Vec, sim: Similarity, best: Option<nat>, bestS: real) {
    && (best == None ==> bestS == -1.0 && forall i :: 0 <= i < |clusters| ==> sim(v, clusters[i].sum) <= -1.0)
    && (best.Some? ==>
          && best.value < |clusters| && bestS == sim(v, clusters[best.value].sum) > -1.0
          && (forall i :: 0 <= i < |clusters| ==> sim(v, clusters[i].sum) <= bestS)
          && (forall i :: 0 <= i < best.value ==> sim(v, clusters[i].sum) < bestS))
  }

  /** One step of the leader pass: join the nearest cluster at or above the threshold, else lead. */
  ghost predicate Placed(before: seq<Cluster>, after: seq<Cluster>, c: Context, vec: Signature, sim: Similarity,
                         threshold: real)
  {
    exists best, bestS :: Nearest(before, vec(c), sim, best, bestS)
      && after == PlacedAt(before, c, vec, threshold, best, bestS)
  }

  function PlacedAt(before: seq<Cluster>, c: Context, vec: Signature, threshold: real, best: Option<nat>,
                    bestS: real): seq<Cluster>
  {
    if best.Some? && best.value < |before| && bestS >= threshold then
      var cl := before[best.value];
      before[best.value := Cluster(cl.members + [c], AddVec(cl.sum, vec(c)))]
    else
      before + [Cluster([c], vec(c))]
  }

  /** c has joined cluster i, and nothing else has changed. */
  ghost predicate JoinedTo(before: seq<Cluster>, after: seq<Cluster>, c: Context, vec: Signature, i: nat) {
    && i < |before| == |after|
    && after[i].members == before[i].members + [c] && after[i].sum == AddVec(before[i].sum, vec(c))
    && forall k :: 0 <= k < |before| && k != i ==> after[k] == before[k]
  }

  ghost predicate Within(before: seq<Cluster>, v: Vec, sim: Similarity, threshold: real, i: nat) {
    i < |before| && sim(v, before[i].sum) >= threshold && sim(v, before[i].sum) > -1.0
  }

  /** A context leads a new cluster exactly when no cluster is within the threshold; otherwise it joins the first of
      those most similar to it. */
  lemma PlacedExactly(before: seq<Cluster>, after: seq<Cluster>, c: Context, vec: Signature, sim: Similarity,
                      threshold: real)
    requires Placed(before, after, c, vec, sim, threshold)
    ensures (forall i :: !Within(before, vec(c), sim, threshold, i)) ==> after == before + [Cluster([c], vec(c))]
    ensures (exists i :: Within(before, vec(c), sim, threshold, i)) ==>
              exists i: nat :: JoinedTo(before, after, c, vec, i) && Within(before, vec(c), sim, threshold, i)
                          && (forall k :: 0 <= k < |before| ==>
                              sim(vec(c), before[k].sum) <= sim(vec(c), before[i].sum)
                              && (k < i ==> sim(vec(c), before[k].sum) < sim(vec(c), before[i].sum)))
  {
    var best, bestS :| Nearest(before, vec(c), sim, best, bestS)
      && after == PlacedAt(before, c, vec, threshold, best, bestS);
    if best.Some? && bestS >= threshold {
      assert JoinedTo(before, after, c, vec, best.value) && Within(before, vec(c), sim, threshold, best.value);
    }
  }

  lemma PlacedKeeps(before: seq<Cluster>, c: Context, contexts: multiset<Context>, vec: Signature, threshold: real,
                    best: Option<nat>, bestS: real)
    requires Clustered(before, contexts, vec)
    ensures Clustered(PlacedAt(before, c, vec, threshold, best, bestS), contexts + multiset{c}, vec)
  {
    if best.Some? && best.value < |before| && bestS >= threshold {
      JoinKeeps(before, c, contexts, vec, best.value);
    } else {
      TotalOne(c, vec);
      assert MembersOf(before + [Cluster([c], vec(c))]) == MembersOf(before) + [[c]];
      BagAppend(MembersOf(before), [c]);
    }
  }

  lemma JoinKeeps(before: seq<Cluster>, c: Context, contexts: multiset<Context>, vec: Signature, best: nat)
    requires Clustered(before, contexts, vec) && best < |before|
    ensures var cl := before[best];
            Clustered(before[best := Cluster(cl.members + [c], AddVec(cl.sum, vec(c)))], contexts + multiset{c}, vec)
  {
    var cl := before[best];
    var grown := Cluster(cl.members + [c], AddVec(cl.sum, vec(c)));
    TotalAppend(cl.members, c, vec);
    assert ClusterOk(cl, vec);
    assert MembersOf(before[best := grown]) == MembersOf(before)[best := grown.members];
    BagUpdate(MembersOf(before), best, [c]);
  }

  method FindNearest(clusters: seq<Cluster>, v: Vec, sim: Similarity) returns (best: Option<nat>, bestS: real)
    ensures Nearest(clusters, v, sim, best, bestS)
  {
    best, bestS := None, -1.0;
    for i := 0 to |clusters|
      invariant Nearest(clusters[..i], v, sim, best, bestS)
    {
      var s := sim(v, clusters[i].sum);
      if s > bestS {
        best, bestS := Some(i), s;
      }
    }
    assert clusters[..|clusters|] == clusters;
  }

  ghost predicate LeaderRun(trace: seq<seq<Cluster>>, ids: seq<Context>, n: nat, vec: Signature, sim: Similarity,
                            threshold: real)
  {
    && |trace| == n + 1 && n <= |ids| && trace[0] == []
    && (forall m :: 0 <= m < n ==> Placed(trace[m], trace[m + 1], ids[m], vec, sim, threshold))
    && (forall m :: 0 <= m <= n ==> Clustered(trace[m], multiset(ids[..m]), vec))
  }

  lemma LeaderStep(trace: seq<seq<Cluster>>, ids: seq<Context>, n: nat, vec: Signature, sim: Similarity,
                   threshold: real,
                   best: Option<nat>, bestS: real)
    requires n < |ids| && LeaderRun(trace, ids, n, vec, sim, threshold)
    requires Nearest(trace[n], vec(ids[n]), sim, best, bestS)
    ensures LeaderRun(trace + [PlacedAt(trace[n], ids[n], vec, threshold, best, bestS)], ids, n + 1, vec, sim,
                      threshold)
  {
    var next := PlacedAt(trace[n], ids[n], vec, threshold, best, bestS);
    assert Clustered(next, multiset(ids[..n + 1]), vec) by {
      assert ids[..n + 1] == ids[..n] + [ids[n]];
      assert Clustered(trace[n], multiset(ids[..n]), vec);
      PlacedKeeps(trace[n], ids[n], multiset(ids[..n]), vec, threshold, best, bestS);
    }
    assert Placed(trace[n], next, ids[n], vec, sim, threshold);
    LeaderMore(trace, next, ids, n, vec, sim, threshold);
  }

  lemma LeaderMore(trace: seq<seq<Cluster>>, next: seq<Cluster>, ids: seq<Context>, n: nat, vec: Signature,
                   sim: Similarity, threshold: real)
    requires n < |ids| && LeaderRun(trace, ids, n, vec, sim, threshold)
    requires Placed(trace[n], next, ids[n], vec, sim, threshold) && Clustered(next, multiset(ids[..n + 1]), vec)
    ensures LeaderRun(trace + [next], ids, n + 1, vec, sim, threshold)
  {
    var longer := trace + [next];
    forall m | 0 <= m < n + 1 ensures Placed(longer[m], longer[m + 1], ids[m], vec, sim, threshold) {
      if m < n {
        assert longer[m] == trace[m] && longer[m + 1] == trace[m + 1];
      }
    }
    forall m | 0 <= m <= n + 1 ensures Clustered(longer[m], multiset(ids[..m]), vec) {
      if m <= n {
        assert longer[m] == trace[m];
      }
    }
  }

  /** The leader pass keeps the contexts partitioned after every single placement. */
  method LeaderPass(ids: seq<Context>, vec: Signature, sim: Similarity, threshold: real)
    returns (clusters: seq<Cluster>, ghost trace: seq<seq<Cluster>>)
    ensures LeaderRun(trace, ids, |ids|, vec, sim, threshold) && clusters == trace[|ids|]
    ensures Clustered(clusters, multiset(ids), vec)
  {
    clusters, trace := [], [[]];
    for n := 0 to |ids|
      invariant LeaderRun(trace, ids, n, vec, sim, threshold) && clusters == trace[n]
    {
      var c := ids[n];
      var best, bestS := FindNearest(clusters, vec(c), sim);
      LeaderStep(trace, ids, n, vec, sim, threshold, best, bestS);
      if best.Some? && bestS >= threshold {
        var cl := clusters[best.value];
        var sum := AddInto(cl.sum, vec(c));
        clusters := clusters[best.value := Cluster(cl.members + [c], sum)];
      } else {
        clusters := clusters + [Cluster([c], vec(c))];
      }
      trace := trace + [clusters];
    }
    assert ids[..|ids|] == ids;
  }

  // ----- the merge pass ------------------------------------------------------------------------

  function SimOf(clusters: seq<Cluster>, sim: Similarity, i: nat, j: nat): real
    requires i < |clusters| && j < |clusters|
  {
    sim(clusters[i].sum, clusters[j].sum)
  }

  predicate Later(i: nat, j: nat, a: nat, b: nat) {
    a > i || (a == i && b > j)
  }

  /** Scanned: every pair (a, b), a < b, whose turn came before (i, j). */
  ghost predicate Scanned(clusters: seq<Cluster>, i: nat, j: nat, a: nat, b: nat) {
    a < b < |clusters| && Later(a, b, i, j)
  }

  /** best is the last scanned pair of greatest similarity at or above the threshold. */
  ghost predicate BestPair(clusters: seq<Cluster>, sim: Similarity, threshold: real, i: nat, j: nat,
                           best: Option<(nat, nat)>, bestS: real)
  {
    && (best == None ==> bestS == threshold && forall a, b :: Scanned(clusters, i, j, a, b) ==>
        SimOf(clusters, sim, a, b) < threshold)
    && (best.Some? ==>
          var (x, y) := best.value;
          && Scanned(clusters, i, j, x, y) && bestS == SimOf(clusters, sim, x, y) >= threshold
          && forall a, b :: Scanned(clusters, i, j, a, b) ==>
               SimOf(clusters, sim, a, b) <= bestS && (Later(x, y, a, b) ==> SimOf(clusters, sim, a, b) < bestS))
  }

  method FindPair(clusters: seq<Cluster>, sim: Similarity, threshold: real)
    returns (best: Option<(nat, nat)>, bestS: real)
    ensures BestPair(clusters, sim, threshold, |clusters|, 0, best, bestS)
  {
    best, bestS := None, threshold;
    for i := 0 to |clusters|
      invariant BestPair(clusters, sim, threshold, i, 0, best, bestS)
    {
      assert forall a, b :: Scanned(clusters, i, i + 1, a, b) ==> Scanned(clusters, i, 0, a, b);
      for j := i + 1 to |clusters|
        invariant BestPair(clusters, sim, threshold, i, j, best, bestS)
      {
        var s := sim(clusters[i].sum, clusters[j].sum);
        assert s == SimOf(clusters, sim, i, j);
        assert forall a: nat, b: nat :: Scanned(clusters, i, j + 1, a, b) <==>
            Scanned(clusters, i, j, a, b) || (a, b) == (i, j);
        if s >= bestS {
          best, bestS := Some((i, j)), s;
        }
      }
      assert forall a, b :: Scanned(clusters, i + 1, 0, a, b) ==> Scanned(clusters, i, |clusters|, a, b);
    }
  }

  /** No two clusters are within the threshold of each other. */
  ghost predicate Apart(clusters: seq<Cluster>, sim: Similarity, threshold: real) {
    forall i, j :: 0 <= i < j < |clusters| ==> SimOf(clusters, sim, i, j) < threshold
  }

  /** Cluster j is poured into cluster i and popped. */
  function Merged(clusters: seq<Cluster>, i: nat, j: nat): seq<Cluster>
    requires i < j < |clusters|
  {
    var a, b := clusters[i], clusters[j];
    var joined := clusters[i := Cluster(a.members + b.members, AddVec(a.sum, b.sum))];
    joined[..j] + joined[j + 1..]
  }

  lemma MergedKeeps(clusters: seq<Cluster>, i: nat, j: nat, contexts: multiset<Context>, vec: Signature)
    requires i < j < |clusters| && Clustered(clusters, contexts, vec)
    ensures Clustered(Merged(clusters, i, j), contexts, vec)
  {
    MergedMembers(clusters, i, j);
    BagMerge(MembersOf(clusters), i, j);
    forall k | 0 <= k < |Merged(clusters, i, j)| ensures ClusterOk(Merged(clusters, i, j)[k], vec) {
      MergedAt(clusters, i, j, k, vec);
    }
  }

  lemma MergedMembers(clusters: seq<Cluster>, i: nat, j: nat)
    requires i < j < |clusters|
    ensures var groups := MembersOf(clusters);
            var poured := groups[i := groups[i] + groups[j]];
            MembersOf(Merged(clusters, i, j)) == poured[..j] + poured[j + 1..]
  {
  }

  lemma MergedAt(clusters: seq<Cluster>, i: nat, j: nat, k: nat, vec: Signature)
    requires i < j < |clusters| && k < |clusters| - 1
    requires forall x :: 0 <= x < |clusters| ==> ClusterOk(clusters[x], vec)
    ensures ClusterOk(Merged(clusters, i, j)[k], vec)
  {
    var a, b := clusters[i], clusters[j];
    assert ClusterOk(a, vec) && ClusterOk(b, vec);
    TotalConcat(a.members, b.members, vec);
    assert Merged(clusters, i, j)[k]
        == if k == i then Cluster(a.members + b.members, AddVec(a.sum, b.sum)) else if k < j then clusters[k]
          else clusters[k + 1];
  }

  /** Each merge joins the last pair of greatest similarity at or above the threshold. */
  ghost predicate MergeStep(before: seq<Cluster>, after: seq<Cluster>, sim: Similarity, threshold: real) {
    exists x: nat, y: nat ::
      && x < y < |before| && after == Merged(before, x, y) && SimOf(before, sim, x, y) >= threshold
      && forall a, b :: 0 <= a < b < |before| ==>
           SimOf(before, sim, a, b) <= SimOf(before, sim, x, y)
           && (Later(x, y, a, b) ==> SimOf(before, sim, a, b) < SimOf(before, sim, x, y))
  }

  ghost predicate Merges(trace: seq<seq<Cluster>>, sim: Similarity, threshold: real) {
    trace != [] && forall n :: 0 < n < |trace| ==> MergeStep(trace[n - 1], trace[n], sim, threshold)
  }

  /** The clusterings one merge after another, from the first to one with nothing left to merge. */
  ghost predicate MergeRun(trace: seq<seq<Cluster>>, sim: Similarity, threshold: real) {
    Merges(trace, sim, threshold) && Apart(trace[|trace| - 1], sim, threshold)
  }

  lemma MergesMore(trace: seq<seq<Cluster>>, next: seq<Cluster>, sim: Similarity, threshold: real)
    requires Merges(trace, sim, threshold) && MergeStep(trace[|trace| - 1], next, sim, threshold)
    ensures Merges(trace + [next], sim, threshold)
  {
  }

  /** Cluster j is poured into cluster i, its sum added to the other's in place, and popped. */
  method Pour(clusters: seq<Cluster>, i: nat, j: nat) returns (next: seq<Cluster>)
    requires i < j < |clusters|
    ensures next == Merged(clusters, i, j)
  {
    var sum := AddInto(clusters[i].sum, clusters[j].sum);
    next := clusters[i := Cluster(clusters[i].members + clusters[j].members, sum)];
    next := next[..j] + next[j + 1..];
  }

  lemma PairIsStep(before: seq<Cluster>, sim: Similarity, threshold: real, x: nat, y: nat, bestS: real)
    requires BestPair(before, sim, threshold, |before|, 0, Some((x, y)), bestS)
    ensures x < y < |before| && MergeStep(before, Merged(before, x, y), sim, threshold)
  {
    forall a, b | 0 <= a < b < |before|
      ensures SimOf(before, sim, a, b) <= SimOf(before, sim, x, y)
      ensures Later(x, y, a, b) ==> SimOf(before, sim, a, b) < SimOf(before, sim, x, y)
    {
      assert Scanned(before, |before|, 0, a, b);
    }
  }

  lemma NoPairIsApart(clusters: seq<Cluster>, sim: Similarity, threshold: real)
    requires BestPair(clusters, sim, threshold, |clusters|, 0, None, threshold)
    ensures Apart(clusters, sim, threshold)
  {
    forall i, j | 0 <= i < j < |clusters| ensures SimOf(clusters, sim, i, j) < threshold {
      assert Scanned(clusters, |clusters|, 0, i, j);
    }
  }

  /** The merge pass ends, leaves no two clusters within the threshold, and loses no context. */
  method MergePass(start: seq<Cluster>, ghost contexts: multiset<Context>, ghost vec: Signature, sim: Similarity,
                   threshold: real)
    returns (clusters: seq<Cluster>, ghost trace: seq<seq<Cluster>>)
    requires Clustered(start, contexts, vec)
    ensures Apart(clusters, sim, threshold) && Clustered(clusters, contexts, vec)
    ensures MergeRun(trace, sim, threshold) && trace[0] == start && trace[|trace| - 1] == clusters
    ensures |clusters| + |trace| == |start| + 1
  {
    clusters, trace := start, [start];
    var merged := true;
    while merged && |clusters| > 1
      invariant Clustered(clusters, contexts, vec)
      invariant Merges(trace, sim, threshold) && trace[0] == start && trace[|trace| - 1] == clusters
      invariant |clusters| + |trace| == |start| + 1
      invariant !merged ==> Apart(clusters, sim, threshold)
      decreases |clusters|, merged
    {
      merged := false;
      var best, bestS := FindPair(clusters, sim, threshold);
      if best.Some? {
        var (i, j) := best.value;
        PairIsStep(clusters, sim, threshold, i, j, bestS);
        MergedKeeps(clusters, i, j, contexts, vec);
        MergesMore(trace, Merged(clusters, i, j), sim, threshold);
        clusters := Pour(clusters, i, j);
        trace := trace + [clusters];
        merged := true;
      } else {
        NoPairIsApart(clusters, sim, threshold);
      }
    }
  }

  // ----- the senses of one word ------------------------------------------------------------------

  const MIN_SENSE_SIZE := 2

  function SizeKey(cl: Cluster): real {
    -(|cl.members| as real)
  }

  predicate BigEnough(cl: Cluster) {
    |cl.members| >= MIN_SENSE_SIZE
  }

  /** What two different clusters of the merged clustering have between them. */
  ghost predicate Far(a: Cluster, b: Cluster, sim: Similarity, threshold: real) {
    && sim(a.sum, b.sum) < threshold
    && forall c :: c in a.members ==> c !in b.members
  }

  ghost predicate SenseOk(cl: Cluster, ids: seq<Context>, vec: Signature) {
    && ClusterOk(cl, vec) && |cl.members| >= MIN_SENSE_SIZE && Distinct(cl.members)
    && forall c :: c in cl.members ==> c in ids
  }

  /** A list of clusters that may stand as the senses of a word: at least two, the largest first, each
      of two or more of its contexts, no context in two of them, no two within the threshold. */
  ghost predicate SensesOk(senses: seq<Cluster>, ids: seq<Context>, vec: Signature, sim: Similarity, threshold: real) {
    && |senses| >= 2
    && (forall i :: 0 <= i < |senses| ==> SenseOk(senses[i], ids, vec))
    && (forall i, j :: 0 <= i < j < |senses| ==> |senses[i].members| >= |senses[j].members|)
    && (forall i, j :: 0 <= i < j < |senses| ==> Far(senses[i], senses[j], sim, threshold))
  }

  lemma ClustersDistinct(clusters: seq<Cluster>, vec: Signature)
    requires NoneTwice(MembersOf(clusters)) && forall i :: 0 <= i < |clusters| ==> ClusterOk(clusters[i], vec)
    ensures Distinct(clusters)
  {
    forall i, j | 0 <= i < j < |clusters| ensures clusters[i] != clusters[j] {
      GroupsDisjoint(MembersOf(clusters), i, j, clusters[i].members[0]);
    }
  }

  lemma FarApart(clusters: seq<Cluster>, sim: Similarity, threshold: real, a: Cluster, b: Cluster)
    requires NoneTwice(MembersOf(clusters)) && Apart(clusters, sim, threshold)
    requires forall u, v :: sim(u, v) == sim(v, u)
    requires a in clusters && b in clusters && a != b
    ensures Far(a, b, sim, threshold)
  {
    var i :| 0 <= i < |clusters| && clusters[i] == a;
    var j :| 0 <= j < |clusters| && clusters[j] == b;
    assert SimOf(clusters, sim, Min(i, j), Max(i, j)) < threshold;
    forall c | c in a.members ensures c !in b.members {
      if c in b.members {
        GroupsDisjoint(MembersOf(clusters), Min(i, j), Max(i, j), c);
      }
    }
  }

  lemma SenseIsCluster(clusters: seq<Cluster>, ids: seq<Context>, vec: Signature, cl: Cluster)
    requires NoneTwice(MembersOf(clusters)) && Clustered(clusters, multiset(ids), vec) && cl in clusters
    ensures ClusterOk(cl, vec) && Distinct(cl.members)
    ensures forall c :: c in cl.members ==> c in ids
  {
    var k :| 0 <= k < |clusters| && clusters[k] == cl;
    GroupDistinct(MembersOf(clusters), k);
    forall c | c in cl.members ensures c in ids {
      MembersInBag(MembersOf(clusters), k, c);
      assert c in multiset(cl.members);
      assert c in multiset(ids);
    }
  }

  lemma SensesFollow(clusters: seq<Cluster>, ids: seq<Context>, vec: Signature, sim: Similarity, threshold: real)
    requires Distinct(ids) && Clustered(clusters, multiset(ids), vec) && Apart(clusters, sim, threshold)
    requires forall u, v :: sim(u, v) == sim(v, u)
    requires |Filter(clusters, BigEnough)| >= 2
    ensures SensesOk(StableSort(Filter(clusters, BigEnough), SizeKey), ids, vec, sim, threshold)
  {
    BagOfDistinct(MembersOf(clusters), ids);
    ClustersDistinct(clusters, vec);
    FilterDistinct(clusters, BigEnough);
    var kept := Filter(clusters, BigEnough);
    var senses := StableSort(kept, SizeKey);
    StableSortElems(kept, SizeKey);
    forall i | 0 <= i < |senses| ensures senses[i] in clusters && SenseOk(senses[i], ids, vec) {
      assert senses[i] in senses && senses[i] in kept;
      SenseIsCluster(clusters, ids, vec, senses[i]);
    }
    forall i, j | 0 <= i < j < |senses|
      ensures |senses[i].members| >= |senses[j].members| && Far(senses[i], senses[j], sim, threshold)
    {
      assert SizeKey(senses[i]) <= SizeKey(senses[j]);
      FarApart(clusters, sim, threshold, senses[i], senses[j]);
    }
  }

  ghost predicate Large(clusters: seq<Cluster>, i: nat) {
    i < |clusters| && |clusters[i].members| >= MIN_SENSE_SIZE
  }

  /** Two clusters or more are left exactly when two hold two contexts or more, and none of these is lost. */
  lemma KeptExactly(clusters: seq<Cluster>)
    ensures |Filter(clusters, BigEnough)| >= 2 <==> exists i, j :: i < j && Large(clusters, i) && Large(clusters, j)
    ensures forall cl :: cl in clusters && |cl.members| >= MIN_SENSE_SIZE ==> cl in Filter(clusters, BigEnough)
  {
    var at := FilterPlaces(clusters, BigEnough);
    LargeAt(clusters, at);
    if |at| >= 2 {
      assert Large(clusters, at[0]) && Large(clusters, at[1]);
    }
    if i: nat, j: nat :| i < j && Large(clusters, i) && Large(clusters, j) {
      var x :| 0 <= x < |at| && at[x] == i;
      var y :| 0 <= y < |at| && at[y] == j;
      assert x != y;
    }
  }

  lemma LargeAt(clusters: seq<Cluster>, at: seq<nat>)
    requires PlacesOf(clusters, BigEnough, at)
    ensures forall i: nat :: i in at <==> Large(clusters, i)
    ensures forall x :: 0 <= x < |at| ==> Large(clusters, at[x])
    ensures |at| >= 2 ==> at[0] < at[1]
  {
    forall x | 0 <= x < |at| ensures Large(clusters, at[x]) {
      assert at[x] in at;
    }
  }

  /** The clusters are what the two passes make of the contexts. */
  ghost predicate Induced(ids: seq<Context>, vec: Signature, sim: Similarity, threshold: real, clusters: seq<Cluster>) {
    exists led, merges ::
      && LeaderRun(led, ids, |ids|, vec, sim, threshold)
      && MergeRun(merges, sim, threshold) && merges[0] == led[|ids|] && merges[|merges| - 1] == clusters
  }

  /** A word's senses, if its contexts are enough and fall into at least two groups of two or more. */
  method InduceSenses(ids: seq<Context>, vec: Signature, sim: Similarity, threshold: real, minPostings: nat)
    returns (senses: Option<seq<Cluster>>, ghost clusters: seq<Cluster>)
    requires Distinct(ids)
    requires forall u, v :: sim(u, v) == sim(v, u)
    ensures |ids| < minPostings ==> senses == None
    ensures |ids| >= minPostings ==>
              && Induced(ids, vec, sim, threshold, clusters) && Clustered(clusters, multiset(ids), vec)
              && senses == if |Filter(clusters, BigEnough)| < 2 then None
                           else Some(StableSort(Filter(clusters, BigEnough), SizeKey))
    ensures senses.Some? ==> SensesOk(senses.value, ids, vec, sim, threshold)
    ensures |ids| >= minPostings ==>
              && (senses.Some? <==> exists i, j :: i < j && Large(clusters, i) && Large(clusters, j))
              && (senses.Some? ==> forall cl :: cl in clusters && |cl.members| >= MIN_SENSE_SIZE ==> cl in senses.value)
  {
    clusters := [];
    if |ids| < minPostings {
      return None, clusters;
    }
    var led, merged;
    ghost var t0, t1;
    led, t0 := LeaderPass(ids, vec, sim, threshold);
    merged, t1 := MergePass(led, multiset(ids), vec, sim, threshold);
    clusters := merged;
    var kept := Filter(merged, BigEnough);
    KeptExactly(merged);
    StableSortElems(kept, SizeKey);
    if |kept| < 2 {
      return None, clusters;
    }
    SensesFollow(merged, ids, vec, sim, threshold);
    senses := Some(StableSort(kept, SizeKey));
  }
}
